# Verification of the POS backend benchmark

The repository runs the same transactional point-of-sale backend in two runtimes, Python (`python/app`) and Go
(`go/internal`), over one PostgreSQL schema. This project models what those transactions do to the database and proves
what they keep. `dafny verify dfyconfig.toml` checks all of it.

Three state machines share the database.

**Payments.** `Checkout` says what one request does when nothing runs beside it: thirteen guards in order, the charge, the
payment row and its dependent rows, or a rollback when a CHECK refuses one of them. `Admission` says the same without the
guards: seventeen rules over the rows a request reads, the error code of each, and everything an accepted payment leaves;
the two are proved to agree, and `AdmissionRuns` carries the rules to every run. `Json` writes a request body as each
runtime serialises it before hashing, and says when the texts differ. `Handlers` holds both runtimes' code as imperative
methods over a `Database` object; each is proved equal to that specification. `PaymentMachine` runs any number of requests statement by statement, under
READ COMMITTED (sections 13.2.1, 13.3.2 and 13.3.5 of the PostgreSQL 17 manual): every statement sees the tables as
committed at its start, writes stay in the transaction until it commits, the advisory lock and at most one row lock are
held to its end, and any statement may be followed by a rollback. A run is an arbitrary sequence of events, so every
schedule is covered. The tables a payment only reads are handed to each statement separately: they may change between
any two statements, unless a theorem says otherwise. The clock is handed in the same way.

**Commands.** `CommandLifecycle` has poll, acknowledge and result as atomic updates and as imperative methods
(`CommandHandlers`). `CommandAnswers` writes out which answer each gets and which rows it leaves, and shows that every answer
of an interleaved handler is the one it would get alone at some moment of the run. `CommandMachine` interleaves their statements. Poll reads without a lock and then writes `SENT`
with no guard on the status, so a status can go back; `CommandHistory` says exactly when, and exhibits such a run.

**Monitoring.** `Monitoring` gives a sweep as one formula; `SweepLoop` proves that the lookup-per-device loops of both
workers compute it, for devices in any order; `SweepHistory` is about sequences of sweeps.

`MixedRuns` puts the three together on the freshly seeded database. `SeedFormulas`, `SeededDatabase` and `LoadFixtures`
connect the seed's index formulas with those of the load scripts, up to the thresholds of the contention workloads.
`Calendar` and `Dashboard` cover the dashboard's periods and totals, `Canvas`, `CanvasText` and `Png` the byte canvas of the
preview image.

Conventions:

- A table is a map from the column its lookups use to the row; dependent payment rows are one sequence in commit order.
- Times are microseconds. Payment ids come from a sequence and need not follow commit order.
- A keyed digest is a symbolic value, equal to another exactly when what was hashed is equal: HMAC is taken to be
  collision-free. `zlib` is a pair of functions of which only `decompress(compress(x)) == x` is used.
- Integers are unbounded where the schema uses BIGINT; `FormatID` has its 64-bit range written out.
- One command per execution, as seeded; the schema does not force it.

Where the code does not do what one might expect, the code is followed:

- Poll can overwrite an acknowledgement or a result with `SENT` (python/app/commands.py:33-46).
- The digest of a command result joins its parts with colons and writes a missing text as `None`
  (python/app/commands.py:15-17). It fixes code and message exactly when both are present, neither reads `None` and neither
  holds a colon; for any other stored report some report with another code or message is answered as its replay.
- The two runtimes hash different texts for a body that holds `<`, `>`, `&`, U+2028 or U+2029, which only Go escapes
  (go/internal/payments/service.go:54-60, python/app/payments.py:27-29): they store different digests, and a request
  repeated through the other runtime is a conflict.
- They also differ on a QR request without a token, and on a card or RF card request that shows no price for a program
  that is free (python/app/payments.py:198 and 256). `Parity.RuntimesAgreeExactly` puts the three cases together.
- An RF card payment for a free program, with a usable card that has a wallet, passes every guard and is then rolled back by
  the CHECK on the ledger amount (db/001_schema.sql:197); no other request ever is.
- `formatID` gives the empty text for a negative id.
- `_draw_rect` deletes bytes when the rectangle ends left of the canvas in its first rows, and `_draw_text` does so from the
  first such cell on.
- Python raises for periods that reach past the year 9999 or before the year 1, where Go answers.

## Model

| member | source | states |
|---|---|---|
| PythonPayments.CreatePayment | python/app/payments.py:84-490 | run alone, Python's handler leaves and commits exactly the tables and gives exactly the reply of the atomic specification, a rollback with unchanged tables included; under a new key it refuses exactly the requests that fail a written-out rule, with the code of the first one, and an accepted payment leaves exactly the written-out rows; a sequence value is taken exactly when a payment row is inserted |
| GoPayments.Create | go/internal/payments/service.go:123-362 | the same for Go's handler |
| PythonPayments.Guards | python/app/payments.py:118-193 | the guards up to the busy bay, then the rest, give the verdict of the guard chain: the first refusal, or the agreed terms |
| PythonPayments.SaleGuards | python/app/payments.py:195-262 | from the resolved program to the price, the verdict of the guard chain |
| PythonPayments.InstrumentGuard | python/app/payments.py:271-334 | the last guard of each payment method, with the scenarios of Python's own mapping, decides as the chain does |
| PythonPayments.Charge | python/app/payments.py:264-362 | the decision, and exactly the QR or wallet row it changes, absolute for QR and relative for the wallet |
| GoPayments.Guards | go/internal/payments/service.go:147-182 | Go's first guards reach the verdict of the same chain |
| GoPayments.SaleGuards | go/internal/payments/service.go:184-227 | Go's guards on program, entitlement, method and price reach the verdict of the same chain |
| GoPayments.Charge | go/internal/payments/service.go:222-320 | Go's decision and row update are those of the specification |
| GoPayments.Scenario | go/internal/payments/service.go:231-258 | Go's scenario switch knows a scenario exactly when the provider has an answer for it, and gives that answer |
| Store.Database.Lookup | python/app/payments.py:99-115 | finds a stored payment exactly when the key is taken, and then answers as a replay: the stored payment, or a conflict when the digest of the text this runtime serialises differs from the stored one |
| Store.Database.SetQrUsage | python/app/payments.py:314-317 | the absolute write of count and status to one code, and nothing else |
| Store.Database.DebitWallet | python/app/payments.py:353-362 | the relative debit of one wallet, its version and time |
| Store.Database.Record | python/app/payments.py:366-487 | the payment row under the next sequence value and the dependent rows in insertion order, or no id when a CHECK refuses one of them |
| Store.Database.InsertPayment | python/app/payments.py:366-398 | takes a sequence value in any case; inserts the row exactly when its amount passes the CHECK |
| Store.Database.Rollback | python/app/db.py:26-32 | the tables go back to what was last committed; the sequence does not |
| Store.Database.InsertArtefacts | python/app/payments.py:400-487 | which dependent rows a payment inserts, and that they all go in exactly when they pass their CHECKs |
| Checkout.RefusalIsFinal | python/app/payments.py:118-364 | the first guard that refuses decides the answer, whatever the later ones would say |
| Admission.RefusedExactly | python/app/payments.py:118-364 | under a new key, for every database, request, runtime and time: refused exactly when one of seventeen written-out rules fails (device, station, heartbeat within 120 s, bay, maintenance, configuration, busy bay, token, code, program, sale, entitlement, method, price, scenario, uid, supported method), with the code of the first that fails in order, and nothing changed |
| Admission.AcceptedExactly | go/internal/payments/service.go:147-362 | the others are accepted, except exactly the RF card debits of 0 that find a wallet, which are aborted |
| Admission.AcceptedPayment | python/app/payments.py:264-489 | the answer and all rows of an accepted payment, column by column: the six card outcomes, a code inside its validity and below its limit, a card active, of the company, unexpired and covered; one code redeemed or one wallet debited, and nothing else |
| Admission.PaidExactly | go/internal/payments/service.go:222-320 | the financial decision of the charge is the written-out one, in every case |
| Admission.StoredKeyAnswers | python/app/payments.py:99-115 | under a taken key: the stored row, column by column, or a conflict when the digest differs, and nothing changed |
| Admission.TakesAnIdExactly | python/app/payments.py:366-398 | a sequence value is taken exactly by requests under a new key that meet every rule |
| AdmissionRuns.StoredPaymentsWereAdmitted | python/app/payments.py:219-249 | in every run under constant tables each stored payment is for an active program of its station's company, entitled for its device, by a method open for it, through a request that met every rule |
| AdmissionRuns.CommitsAreAdmitted | python/app/payments.py:264-489 | every commit of a run leaves, on the tables committed just before, exactly what an accepted payment leaves |
| Serializability.RunIsSerial | python/app/payments.py:93-115 | every interleaving with rollbacks anywhere leaves the tables, and gives the replies, of running the atomic create for the finished requests, aborted ones included, in the order they took effect |
| Serializability.GuardsIgnoreUsage | python/app/payments.py:198-213 | no guard, the unlocked QR preflight included, sees what other payments write |
| PaymentInvariant.RunKeepsInv | db/001_schema.sql:114-258 | in every reachable state the constraints of the schema hold, locks have one owner each, and the tables are the committed entries settled in commit order |
| PaymentInvariant.CommitIsSettle | python/app/payments.py:286-489 | what a transaction commits after its separate statements is one atomic settlement of the tables committed just before |
| PaymentInvariant.UpdateIsCharge | python/app/payments.py:310-317 | under the row lock the absolute QR write is an increment of the committed row |
| PaymentInvariant.ChargeUndisturbed | python/app/payments.py:288-345 | no other commit changes what a transaction decided on while it holds its row lock |
| PaymentInvariant.SettleKeepsConstraints | db/001_schema.sql:114-258 | a settlement keeps every constraint |
| PaymentInvariant.OnlyTheAmountCheckRefuses | db/001_schema.sql:165-200 | no UNIQUE constraint ever refuses a dependent row; only the amount CHECK of the ledger can |
| PaymentChange.Classify | python/app/payments.py:84-490 | every event of a run does nothing, changes one open transaction only, ends one without writing (a replay, a refusal, or an abort by a CHECK), or commits |
| Idempotency.OnePaymentPerKey | python/app/payments.py:93-115 | all accepted replies for one (device, key) are equal and answer the same request: equal bodies, served by one runtime or free of characters only Go escapes; at most one payment is stored per key |
| Json.SameTextExactly | go/internal/payments/service.go:54-60 | for all bodies and both runtimes: the serialised texts are equal exactly when the bodies are equal and the runtime is the same or no text of the body holds a character only Go escapes |
| Json.BodyText | python/app/payments.py:27-29 | the seven fields in order, by name, with null for what is missing |
| Json.StringRoundTrip | go/internal/payments/service.go:54-60 | a JSON reader recovers every text from what either runtime writes between the quotes |
| Idempotency.StoredKeyDecides | go/internal/payments/service.go:126-145 | once a payment is stored, every request under its key that has not looked up yet ends with it, or with a conflict exactly when its digest differs, or is rolled back |
| Idempotency.StoredRequestDecides | python/app/payments.py:99-115 | in terms of the request that was stored, for runs that mix the runtimes: a later one that finishes is answered with the payment exactly when its body is equal and the runtime is the same or the body is free of characters only Go escapes, and with a conflict otherwise |
| Conservation.NothingIsLost | python/app/payments.py:312-362 | over every run a wallet's balance plus its ledger debits is the initial balance, its version counts those debits, a code's usage counts its SUCCESS payments, and a code is USED exactly when full |
| PaymentRows.CommittedPaymentsAreComplete | python/app/payments.py:366-489 | a committed payment has exactly these dependent rows, column by column: one attempt, one event and one audit row with its status, a provider row iff CARD, a start right for its device and program iff SUCCESS, and a debit of exactly its amount iff RF_CARD and SUCCESS |
| PaymentRows.RolledBackLeavesNothing | python/app/db.py:26-32 | a rolled-back request holds no lock and no pending write; no payment or dependent row carries the id it took; and its key is taken exactly when it was before the run or another request was accepted under it |
| PaymentRows.SentAgain | python/app/payments.py:93-115 | so, when no other request was accepted under its key, the same request sent again is judged afresh: refused by the guards, aborted by a CHECK, or settled as a new payment, never a replay or a conflict |
| PaymentRows.AbortedExactly | db/001_schema.sql:192-199 | in any run a finished request was aborted exactly when it was to debit a wallet for a free program; no other constraint aborts one |
| Aborts.AbortedAloneExactly | db/001_schema.sql:192-199 | run alone, a request is aborted, with the tables unchanged, exactly when its key is new, the guards pass, the method is RF_CARD, the program is free, and the card is usable and has a wallet |
| Aborts.AFreeRfPaymentIsAborted | python/app/payments.py:425-443 | a database the schema admits and a request that it aborts |
| PaymentRows.KeyTakenExactly | db/001_schema.sql:146-163 | at any moment of any run a key is taken exactly when it was at the start or some request has been accepted under it |
| PaymentProgress.EveryRunEnds | python/app/payments.py:93-489 | N requests take at most 30 N effective events in any schedule |
| PaymentProgress.NeverStuck | python/app/payments.py:93-345 | from every reachable state all open requests can be brought to an end without a failure: no deadlock |
| PaymentProgress.SomeoneMoves | python/app/payments.py:93-345 | in every reachable state with open requests some request is not blocked, because the advisory lock comes first and at most one row lock follows |
| Contention.ExactlyTheCapacityWins | python/app/payments.py:298-362 | in every complete schedule of N valid requests with distinct keys exactly min(N, capacity) succeed, every other one is FAILED with the losing code, and the code or wallet ends accordingly; the capacity is r uses or b/p payments |
| Contention.NeverMoreThanTheCapacity | contracts/qr-payment.yaml:26-29 | at any moment of any such run, with rollbacks, the requests answered so far split the same way |
| Contention.LastOneWins | contracts/rf-payment.yaml:28-32 | with a capacity of one there is exactly one winner |
| Contention.NextSettlement | python/app/payments.py:298-362 | the next settled request wins exactly while something is left |
| Parity.RuntimesAgreeExactly | go/internal/payments/service.go:123-362 | for every database, request and time, Python and Go give the same reply and rows, except exactly: under a new key, when a QR request that reaches the preflight has no token, a card or RF card request that reaches the price check of a free program shows no price, or a payment is stored for a body with a character only Go escapes; under a taken key, when such a body is the stored one |
| Parity.RuntimesAgree | go/internal/payments/service.go:147-320 | with a token on every QR request, positive prices and texts free of the characters only Go escapes, the two never differ |
| Parity.OnlyTheDigestDiffers | go/internal/payments/service.go:54-60 | a stored body with such a character: the same reply, but different rows |
| Parity.AnAmpersandDiverges | python/app/payments.py:27-29 | one such body: a card request with an ampersand in its unused token, wherever it is stored |
| Parity.NoUnsupportedMethod | python/app/payments.py:363-364 | the last branch is never reached, because only three methods can be enabled |
| Parity.NormalFormIsStable | go/internal/payments/service.go:64-70 | a normalised uid is its own normal form |
| Parity.DigitKept | python/app/payments.py:20-24 | each hexadecimal digit is kept once, in upper case, at the place given by the digits before it; every other character vanishes |
| CommandHandlers.CommandStore.PendingCommands | python/app/commands.py:26-77 | the loop over the listed rows, updating row by row, is one poll of the specification |
| CommandHandlers.CommandStore.UpdateSent | python/app/commands.py:43-57 | the command is SENT without a guard, its execution only from CREATED |
| CommandHandlers.CommandStore.AcknowledgeCommand | python/app/commands.py:80-117 | acknowledge with its 30 second deadline and idempotent answer |
| CommandHandlers.CommandStore.ApplyCommandResult | python/app/commands.py:120-226 | result with its 120 second deadline, its write-once row and its conflict |
| CommandLifecycle.OneAtATime | python/app/commands.py:33-58 | with handlers one at a time only five (command, execution) pairs are reached, no status goes back, and a terminal command completed less than 150 s after its creation |
| CommandLifecycle.PollSendsExactly | python/app/commands.py:26-58 | a poll moves exactly the PENDING commands among the first `limit` open ones |
| CommandLifecycle.FirstOpenExactly | go/internal/commands/service.go:49-66 | a poll lists the first `limit` open commands of its device by (created_at, id) |
| CommandAnswers.PollLists | python/app/commands.py:26-41 | the same over the rows alone: PENDING and SENT commands of the device, ordered by creation time and id, cut at the limit |
| CommandAnswers.AcknowledgeAnswers | python/app/commands.py:80-117 | for every book: not found, expired exactly for an open command at least 30 s old, and otherwise the status the command has afterwards, one of ACKNOWLEDGED, SUCCESS, FAILED |
| CommandAnswers.AcknowledgeWrites | go/internal/commands/service.go:112-138 | the command and its execution are written, with their times, exactly when the command was open and young |
| CommandAnswers.ResultAnswers | python/app/commands.py:130-176 | which of the seven answers a report gets, each by an if-and-only-if over the rows read |
| CommandAnswers.ResultWrites | python/app/commands.py:178-226 | a new report SUCCESS, and only that, makes answer, command, execution, stored result and event successful; FAILED makes them failed; nothing else changes |
| CommandAnswers.PollAnswers | python/app/commands.py:60-77 | the listed commands in order, each as SENT, at the time of the poll if it was PENDING and at its old time otherwise |
| CommandAnswers.PollWrites | go/internal/commands/service.go:68-90 | exactly the listed PENDING commands become SENT, and exactly their CREATED executions COMMAND_SENT |
| CommandAnswers.EveryAnswerIsAtomic | python/app/commands.py:26-226 | in every run, with any interleaving and rollbacks, each answer is what the whole handler alone would have answered on the book committed at some moment of the run |
| CommandAnswers.AnsweredAsAlone | python/app/commands.py:80-226 | the statement that ends an acknowledgement or a result leaves the book and gives the answer of the whole handler alone |
| CommandLifecycle.DigestFixesResult | python/app/commands.py:15-17 | equal digests of valid reports have the same result |
| CommandLifecycle.SameDigestExactly | python/app/commands.py:15-17 | valid reports have one digest exactly when result and joined text agree |
| CommandLifecycle.DigestRecoversExactly | go/internal/commands/service.go:141-154 | the digest of a valid report fixes its code and message, among all valid reports, exactly when both are present, neither reads None and neither holds a colon |
| CommandLifecycle.DigestRecoversWithin | python/app/main.py:36-39 | the same among reports whose code and message are limited in length, as Python limits them: exactly when neither reads None and no other colon divides the joined text within the limits |
| CommandLifecycle.ReplayedExactly | python/app/commands.py:146-165 | once a result is stored, a valid report is answered as its replay exactly when key, result and joined text agree, and with a conflict otherwise |
| CommandLifecycle.OnlyItselfIsReplayedExactly | go/internal/commands/service.go:141-190 | a stored result is replayed to no report but its own exactly when that report's code and message are recoverable |
| CommandSafety.RunKeepsInv | python/app/commands.py:26-225 | with polls interleaved anywhere: a terminal command was acknowledged in time, completed within 150 s, has its one result and its execution's status; a report SUCCESS is answered and stored as successful and FAILED as failed, with the reported code and message; acknowledgements show a command no longer open, polls only SENT ones; no UNIQUE violation occurs |
| CommandSafety.CommitIsHandler | python/app/commands.py:80-225 | what acknowledge and result commit and answer is exactly what the atomic handler does to, and answers on, the book committed just before |
| CommandSafety.InsertResultKeepsInv | python/app/commands.py:146-185 | the UNIQUE constraint on results never fires |
| CommandHistory.ResultsAreWrittenOnce | python/app/commands.py:146-185 | a stored result is never changed or removed, in any run |
| CommandHistory.StatusGoesBackExactlyOnStaleCommit | python/app/commands.py:33-59 | a status goes back exactly when a poll commits a command it had read as PENDING and that was acknowledged or completed since |
| CommandHistory.AStalePollOverwritesAnAcknowledgement | go/internal/commands/service.go:49-108 | a run that ends with a SENT command whose execution is RUNNING |
| CommandProgress.EveryRunEnds | python/app/commands.py:26-225 | N handlers over M commands take at most N (2 M + 7) effective events |
| CommandProgress.NeverStuck | python/app/commands.py:34-56 | from every reachable state all open handlers can be brought to an end: polls lock in (created_at, id) order, each command before its execution, the others lock one command |
| CommandProgress.ExecutionsAreUncontended | python/app/commands.py:48-56 | nobody ever waits for an execution row |
| PythonWorker.SweepTargetRuntime | python/app/worker.py:40-168 | the loops leave exactly the windows and alarms of the set-based formula, for any order of devices; and the five counters are, from the rows before and after alone: rows added, rows closed, windows that became ACTIVE, windows that became COMPLETED, devices listed |
| GoWorker.Sweep | go/internal/worker/service.go:25-177 | the same for Go's worker |
| GoWorker.ActiveMaintenance | go/internal/worker/service.go:46-65 | the map filled row by row is the set of devices in maintenance |
| SweepLoop.TallyShows | go/internal/worker/service.go:171-177 | the same five counts, for every board and every readings |
| AlarmStore.AlarmTables.MoveWindows | python/app/worker.py:43-62 | the two window updates together advance every window once, and count the rows they match |
| AlarmStore.AlarmTables.Activate | python/app/worker.py:43-52 | row by row, exactly the due SCHEDULED windows become ACTIVE, counted as they match |
| AlarmStore.AlarmTables.Complete | python/app/worker.py:53-62 | the same for windows past their end |
| AlarmStore.AlarmTables.EvaluateDevice | python/app/worker.py:96-136 | one turn of the loop: raise, resolve or nothing, and the counters |
| AlarmStore.AlarmTables.OpenAlarm | python/app/worker.py:9-37 | inserts an alarm exactly when none is open under the key |
| MonitoringLaws.OfflineAlarmExactly | python/app/worker.py:111-136 | after a sweep the offline alarm of an ACTIVE device is open iff it is overdue and not in maintenance, or was open and is still offline |
| MonitoringLaws.OfflineAlarmWhen | python/app/worker.py:94-136 | the same over the rows before the sweep, with the five and two minutes and the covering window written out |
| MonitoringLaws.WindowAfter | python/app/worker.py:43-62 | where each window stands after a sweep, for each status before |
| MonitoringLaws.AlarmRowsAfter | python/app/worker.py:113-159 | existing rows are kept or closed now; new rows are open, of now, under one of the two keys |
| MonitoringLaws.OthersUntouched | python/app/worker.py:94-136 | alarms of other devices stay as they are |
| MonitoringLaws.NothingRaisedElsewhere | go/internal/worker/service.go:93-123 | the offline alarm of a device outside the list is open afterwards iff it was before |
| MonitoringLaws.FailureAlarmExactly | python/app/worker.py:138-159 | a failure alarm is open iff it was, or the device had three failed or timed-out executions in ten minutes |
| SweepHistory.OpenExactlyWhen | python/app/worker.py:43-136 | over any sequence of sweeps in time order, the alarm of a continuously ACTIVE device is open iff some sweep fired it, or it began open, and every later sweep found it offline |
| SweepHistory.OnlyTheLastSweepMatters | python/app/worker.py:43-62 | the windows after sweeps in time order are those after the last one alone |
| SweepHistory.SecondSweepIsIdle | python/app/worker.py:94-168 | a second sweep at the same instant changes nothing and returns zero counts |
| SweepHistory.CountersBalance | python/app/worker.py:94-168 | opened minus resolved is the change in OPEN rows |
| SweepHistory.SweptKeepsOneOpen | db/002_indexes.sql:16 | there is never a second OPEN row per (device, key) |
| SweepHistory.PaymentsAgree | python/app/payments.py:150-161 | at the instant of a sweep the payment guard refuses exactly the devices covered by a window that is neither completed nor cancelled |
| MixedRuns.EveryMixedRunIsClean | db/checks/invariants.sql:5-76 | from a fresh seed every run mixing interleaved payments and command handlers with sweeps and heartbeats leaves every query of the file empty |
| MixedRuns.MixedRunProjects | python/app/payments.py:183-193 | a mixed run is, for each machine, one of its own runs, with the others as its environment |
| MixedRuns.AResultFreesItsBay | python/app/payments.py:183-193 | once the command of a busy bay is terminal, payments at that bay pass the busy check |
| SeedFormulas.ContentionFixtureMatches | load/common.js:51-74 | for every fitting profile and index, the contention device is outside the busy prefix, shares station and company with its QR code and RF card, and asks for its entitled program at price 1000 |
| SeedFormulas.CardFixtureMatches | load/common.js:31-56 | the same for the devices of the card workload |
| SeedFormulas.SeededPaymentIsConsistent | db/seed/seed.py:213-239 | a seeded payment's station is its device's, and its program belongs to that station's company |
| SeedFormulas.BusyPrefix | db/seed/seed.py:243-254 | every seeded execution is for the device of its own number |
| SeedFormulas.TheProfilesFit | db/seed/profiles.py:5-9 | the three shipped profiles fit |
| SeededDatabase.SeedIsReady | db/seed/seed.py:151-241 | the seeded rows satisfy every constraint, and the sequence is past them |
| SeedTexts.UidIsNormal | db/seed/seed.py:199-207 | the uid behind a seeded card is in normal form |
| SeedTexts.TokensDiffer | db/seed/seed.py:186-186 | different codes have different tokens |
| LoadFixtures.QrContentionHasOneWinner | load/payment-qr-contention.js:10-42 | from the fresh seed, in every complete schedule and for any mix of runtimes, exactly one request succeeds and the others get QR_INVALID |
| LoadFixtures.RfContentionHasOneWinner | load/payment-rf-contention.js:10-44 | the same for a wallet: one success, the others RF_INSUFFICIENT_BALANCE, the wallet debited once to zero |
| LoadFixtures.CardRequestSucceeds | load/payment-card.js:36-50 | every request of the card workload passes every guard and is charged 1000 |
| Calendar.RuntimesAgreeOnPeriods | go/internal/dashboard/service.go:42-56 | both runtimes give the same bounds for every day, except exactly where Python's years end |
| Calendar.NowIsInThePeriod | python/app/dashboard.py:35-49 | for every day, the ends of Python's years included: Go has an interval for every known period, now lies in it, TODAY is one day and LAST_7_DAYS seven, both to the next midnight; where Python has an interval it is the same |
| Calendar.ThisMonthExactly | python/app/dashboard.py:42-48 | THIS_MONTH covers exactly the days of the month |
| Calendar.DayNumber | go/internal/dashboard/service.go:42-56 | the day numbers behind both runtimes' date arithmetic, in closed form |
| Dashboard.Overview | go/internal/dashboard/service.go:58-131 | for every day, company and table, Go's overview, counted payment by payment, is the one specified for Go, and every number in it is the size of, or the sum over, exactly the set of payments it names |
| Dashboard.OverviewsAgreeExactly | python/app/dashboard.py:52-173 | for every day, company and table, the two overviews, errors included, are equal exactly when the period stays within Python's years and a company found has no negative id |
| Dashboard.AnswersShow | python/app/dashboard.py:98-186 | in either runtime's answer: transactions, the four statuses, gross, and each method's row count or add up exactly the payments of the company's stations in the period with that status and method, one row per method that occurs, by name |
| Dashboard.CountPayments | go/internal/dashboard/service.go:93-105 | the six aggregates, row by row, as set sizes and a sum |
| Dashboard.CountMethods | go/internal/dashboard/service.go:107-132 | one row for each method that occurs, in order |
| Dashboard.MethodsAddUp | python/app/dashboard.py:98-134 | the rows per method add up to the transaction count, the successful count and the gross amount |
| Dashboard.StatusesAddUp | python/app/dashboard.py:98-116 | the four statuses add up to the transactions |
| Dashboard.CompaniesPartition | go/internal/dashboard/service.go:93-105 | the companies' totals partition all payments of the period |
| Dashboard.FormatID | go/internal/dashboard/service.go:154-167 | the decimal text of a non-negative id, the empty text otherwise; equal to Python's exactly for non-negative ids |
| Texts.DecimalRoundTrip | go/internal/dashboard/service.go:154-167 | the decimal text read back is the number |
| Canvas.DrawRect | scripts/publication/render_assets.py:429-435 | on a buffer of any length, the loop of slice assignments; on a canvas it recolours exactly the rectangle's pixels and keeps its length, unless it deletes bytes; and it deletes exactly under the stated condition on its arguments |
| Canvas.RectPaintsExactly | scripts/publication/render_assets.py:429-435 | the same about the function the loop computes |
| Canvas.SafeWhenItReachesTheCanvas | scripts/publication/render_assets.py:429-435 | a rectangle with x + w >= 0 is drawn exactly |
| CanvasText.DrawText | scripts/publication/render_assets.py:438-446 | on a buffer of any length and for text at any place, the cells are drawn in order; when no set cell deletes, it paints exactly the part of the union of its set cells that lies on the canvas |
| CanvasText.TextPaintsExactly | scripts/publication/render_assets.py:438-446 | the same about the function the loops compute |
| CanvasText.LitExactly | scripts/publication/render_assets.py:438-446 | where the set bits land: six cells to a character, a square of the scale to a cell, a blank for an unknown character |
| CanvasText.SafeFromTheLeftEdge | scripts/publication/render_assets.py:438-446 | text that starts no further left than one cell has no deleting cell |
| CanvasText.FirstDeletion | scripts/publication/render_assets.py:429-446 | otherwise there is a first deleting cell: up to it the text is painted exactly, and drawing it shortens the buffer |
| Png.ChunksRoundTrip | scripts/publication/render_assets.py:425-426 | a reader recovers every list of chunks, checking length and checksum |
| Png.FrameRows | scripts/publication/render_assets.py:468-473 | the loop puts a filter byte before each row |
| Png.WritePng | scripts/publication/render_assets.py:468-477 | the file is the signature and the three chunks of the canvas |
| Png.FileRoundTrip | scripts/publication/render_assets.py:468-477 | reading the file gives back the size and every byte of the canvas |

## Left out

- HTTP routing, JSON decoding, headers and credentials: the model starts from an authenticated device and a decoded request.
- The checks Python's endpoint makes on a payment request before the handler, such as a displayed price that must be positive, and the message a request gets when a constraint aborts it: both belong to the HTTP layer.
- Texts are sequences of Unicode scalar values; lone surrogates and malformed UTF-8 do not reach the hashed body.
- The statements on maintenance windows, busy bays and dependent rows, and the dashboard's counting queries, have the same SQL text in both runtimes, so the model has them once.
- The dashboard writes an instant as `+00:00` in Python and as `Z` in Go; the model compares the instants.
- HMAC, SHA-256, `hashtextextended` and zlib internals. Two different advisory-lock keys never collide here; a collision would only add waiting.
- Foreign-key share locks, connection-pool queueing, SQL planning, and time spent waiting; a blocked statement changes nothing and may be tried again.
- Error messages, currency, provider references, event payload texts, command payloads and deadline texts in poll's answer.
- The `execution` part of a payment's payload: payments create no execution.
- At most one PUBLISHED configuration per device is stored in the model; the schema does not force it.
- Reading the payload back after the commit is one step with the commit; the rows it reads do not change after it.
- The branch COMMAND_NOT_ACKNOWLEDGEABLE: a command has no status that reaches it.
- Two sweeps at the same time, which the workers do not run; the reads of a sweep may still be separated by commits of payments and command handlers.
- Heartbeat and configuration endpoints: device states are an input.
- The failed-execution count, device counts, organisation counts and company name of the dashboard.
- The numbers of the font and the drawing calls of the preview, colours in hexadecimal, SVG rendering, k6 scenarios, metrics and shell scripts.
- Idempotency.OnePaymentPerKey: a reply that finds the key stored by a seeded payment is a conflict, since the seed's digests are not those of any body.
- Contention.ExactlyTheCapacityWins: the tables a payment only reads stay constant during the round; the seeded workloads meet this.
- Serializability.RunIsSerial: stated for constant read-only tables; with changing ones PaymentInvariant.RunKeepsInv still gives the tables as settlements in commit order.
- Parity.RuntimesAgreeExactly: compares error codes, replies and rows, not message texts.
- CommandProgress.NeverStuck: locks of one handler are taken one statement at a time, in the order PostgreSQL would take them for single-row updates.
- CanvasText.DrawText: the text is given in upper case.
- LoadFixtures.QrContentionHasOneWinner: the fixture device keeps sending heartbeats and the clock is inside the code's validity.
