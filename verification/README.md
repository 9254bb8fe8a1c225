# Deposits and transfers across two services: a verified model

The system keeps money in two services. The transaction service owns a ledger of deposits and
transfers; the user service owns the balances. They talk only through Kafka, each through its own
transactional outbox that a cron worker publishes, and each remembers the `idempotencyKey` headers
it has processed. Delivery is at least once, and every publication carries a fresh key. This project
models that saga and proves what it guarantees, then does the same for the circuit breaker of the
proxy client, the outbox worker, the one-time codes, the cursor pagination and the money printer.

Check it with `dafny verify dfyconfig.toml` (Dafny 4.11).

## How it is built

| files | what they hold |
|---|---|
| `Common.dfy` | identifiers, results, topics and payloads |
| `Ledger.dfy`, `LedgerInvariant.dfy` | the ledger's database transactions as functions on tables, and what each of them keeps |
| `LedgerCalls.dfy` | what the calls that start or settle a transaction do, told of tables and arguments |
| `Accounts.dfy`, `AccountsLaws.dfy` | the same for the balances |
| `TransactionRepository.dfy`, `BalanceRepository.dfy` | the repositories and handlers as classes that update their tables; each method is proved against its function and carries the invariants |
| `Saga.dfy` | both databases, the messages between them and all steps, as one state machine |
| `SagaInvariant.dfy`, `SagaTokens.dfy`, `SagaMoney.dfy` | the three inductive invariants |
| `SagaTheorems.dfy` | what holds after every run, and the exact conditions of exactly-once |
| `SagaOrigins.dfy` | every row, order and settlement of a run goes back to a call |
| `SagaProgress.dfy` | when a saga can still end |
| `SagaWorkers.dfy` | the saga run together with one outbox worker on each side |
| `SagaView.dfy`, `SagaSimulation.dfy`, `SagaWitness.dfy` | the runs that show where exactly-once ends |
| `Locks.dfy`, `LocksProofs.dfy`, `LocksTheorems.dfy`, `LocksOutcomes.dfy` | the balance transactions statement by statement under row locks, and what becomes of each |
| `OutboxWorker.dfy`, `OutboxRuns.dfy` | the worker's pass, and one worker with its awaits taken apart |
| `Breaker.dfy`, `BreakerLaws.dfy`, `ProxyClient.dfy` | the circuit breaker |
| `Otp.dfy`, `Paging.dfy`, `Money.dfy` | the smaller parts |

A message stays deliverable for ever, so it may come late, out of order, many times or never. A
worker may publish any outbox row at any time, marked or not, under a key not used before. An order
handler may throw before its commit, or after it when the acknowledgement of the commit is lost, and
its catch block may be cut off; its try block and its catch block are two steps, so other handlers
may come between. The transaction of a reply is two steps as well: it looks its key up, and goes on
later, when another delivery of the same message may have inserted the key. The rest of it is one
step because its first update, or its `SELECT ... FOR UPDATE`, locks the rows it is about. Both
services' handlers come from the source; there is no other environment than the broker, the provider
and the clients.

## Exactly once, and where it ends

Exactly-once without conditions is false, because deduplication is by message and not by outbox
row. `SagaTokens` makes the matter a conservation law: a started deposit or transfer is held by one
token that moves along the saga (an unpublished order, a published one, an unpublished failure
report, a published one, a credit). Each broken run condition adds exactly one more token, and
nothing else adds or removes one. The conditions are

1. no ledger outbox row is published twice;
2. no failure report is published twice;
3. no order is applied after it was reported failed;
4. no order is reported failed after it was applied;
5. no order is reported failed twice.

`SagaWitness` has a run for each of them in which that condition is broken once, no other is broken
at all, and the deposit is paid out twice. The first two hold by themselves when each side has one
worker that always marks what it delivered: `SagaWorkers` runs the saga together with two workers,
and its publications and marks are theirs. The fourth is easy to overlook: an order
that was applied and is delivered again may throw before its key is looked up, and is then reported
failed although nobody handles it after the report. Redelivery of everything else, failure messages
included, is harmless to the money.

The status FAILED needs one condition more. A transaction that exhausts the retries inserts no key.
If two deliveries of one failure message both look its key up before either commits, and the count
is two below the limit, the first makes the retry and the second gives the saga up; the retry may
then be credited under the status FAILED, with none of the five conditions broken
(`SagaWitness.FailedYetCredited`). `SagaTheorems.FailureStandsIff` says that FAILED comes with a
standing failure, in every state of a run, exactly when no transaction gives up in this way.

A started saga can always go on. `SagaProgress.EndsIff` takes any reachable state, clean or not, and
finds steps that break no condition and end the saga, confirmed or with a failure that stands. The
one exception is what that last run leaves: a deposit that is FAILED while nothing but credits
stands for it. `setStatusUpdatedAndCreateProcessedEvent` confirms only a COMPLETED deposit, so its
success report comes back in vain, and nothing else is on its way (`SagaWitness.FailedForEver`). A
transfer is confirmed whatever its status, so it has no such end.

## Model

| member | source | states |
|---|---|---|
| `SagaTheorems.TokenLaw` | apps/transaction-service/src/core/repositories/transaction.repository.ts:264-331 | in every run, a started saga is held by exactly one token (order or failure report on its way, last failure, or credit) plus exactly one for each broken run condition; a saga not started by none |
| `SagaTheorems.ExactlyOnce` | apps/user-service/src/core/repositories/balance.repository.ts:60-90 | if no run condition is broken for a deposit or transfer, then under any redelivery, reordering, loss and crash it is credited at most once; BALANCE_UPDATED implies exactly one credit, FAILED implies none if the ledger never gave the saga up unduly (the exact condition of SagaTheorems.FailureStandsIff) |
| `SagaTheorems.FailureStandsIff` | apps/transaction-service/src/core/repositories/transaction.repository.ts:311-323 | in every state of a run FAILED comes with a failure report that led to no retry if and only if no transaction gave up under a key that another delivery had processed since the lookup, at the limit and with no other failure standing |
| `SagaTheorems.FailureIsFinalIff` | apps/transaction-service/src/core/repositories/transaction.repository.ts:317-323 | with no condition broken, a failure stands if and only if nothing else does: no order or report on its way, and no credit |
| `SagaTheorems.UndueNoted` | apps/transaction-service/src/core/repositories/transaction.repository.ts:274-323 | which single step gives a saga up unduly |
| `SagaTheorems.ExactlyOnceIff` | apps/user-service/src/core/repositories/balance.repository.ts:60-90 | a saga with nothing left on its way was credited once more than the conditions broken for it; so it was credited once if and only if none was broken |
| `SagaTheorems.CreditsBounded` | apps/user-service/src/core/repositories/balance.repository.ts:60-90 | in any run at all: credits <= 1 + broken conditions, no credit before the start, and one credit fewer while a failure stands |
| `SagaTheorems.NothingLost` | apps/transaction-service/src/core/repositories/transaction.repository.ts:128-153 | a started saga is never lost, and one thing alone stands for it if and only if no condition was broken |
| `SagaTheorems.BreaksCounted` | apps/transaction-service/src/processes/outbox/outbox-worker.service.ts:29-39 | which single steps break a condition: publishing an order row again, publishing a failure report again, applying a reported order, reporting an applied or reported order; the counter of the history counts these and nothing else |
| `SagaTheorems.CleanRun` | apps/transaction-service/src/processes/outbox/outbox-worker.service.ts:29-39 | a run has no counted anomaly if and only if no step of it breaks a condition |
| `SagaTheorems.HandlerIsTwoSteps` | apps/user-service/src/feat/balance/balance-kafka.service.ts:23-86 | an order handler, faults included, is the try step of the machine followed, if it threw, by the catch step; so the machine allows every behaviour of the handler and more interleavings |
| `SagaTheorems.ReplyHandlerIsTwoSteps` | apps/transaction-service/src/processes/kafka/kafka-process.service.ts:28-172 | a reply handler equals the lookup of its key followed, if it was not found, by the rest of its transaction |
| `SagaTheorems.UnpaidIsUncredited` | apps/transaction-service/src/core/repositories/transaction.repository.ts:159-195 | a deposit that is PENDING or TIMEOUT has no outbox row, no message, no reply and no credit anywhere |
| `SagaTheorems.TimeoutIsFinal` | apps/transaction-service/src/core/repositories/transaction.repository.ts:159-195 | a deposit that has timed out keeps its row for ever and is never ordered, answered or credited, whatever steps follow |
| `SagaTheorems.ConfirmedIsCredited` | apps/transaction-service/src/core/repositories/transaction.repository.ts:212-262 | a BALANCE_UPDATED row has a processed order whose effect on the balance of its own account and currency is its own amount (negative for the outgoing leg) |
| `SagaTheorems.RetryBound` | apps/transaction-service/src/core/repositories/transaction.repository.ts:293-323 | outbox rows of a transaction never exceed max(1, maxRetry); their number is exactly 1 + min(retryCount, maxRetry - 1) once started, however often failures are delivered |
| `SagaTheorems.RetryFidelity` | apps/transaction-service/src/core/repositories/transaction.repository.ts:333-403 | a failure message always finds its transaction and its event; a retry adds a row with the topic, payload and transaction of the original, the last one sets FAILED on all its rows; a transaction that lost the race for the key changes nothing unless it gives up; which of the two updated rows comes first does not matter |
| `SagaTheorems.LegsInStep` | apps/transaction-service/src/core/repositories/transaction.repository.ts:333-444 | in every run the legs of a transfer have opposite amounts, crossed references, equal status and equal retry count, and every transfer message names such a pair |
| `SagaTheorems.Conservation` | apps/user-service/src/core/repositories/balance.repository.ts:64-76 | every balance is the sum of the effects of the distinct keys applied since the last reset and is never negative; the total of a currency is what was deposited in it |
| `SagaTheorems.RunKeeps` | apps/transaction-service/src/core/repositories/transaction.repository.ts:98-157 | the three invariants (flow of messages and statuses, money, tokens) hold after every run |
| `SagaProgress.EndsIff` | apps/transaction-service/src/core/repositories/transaction.repository.ts:264-331 | from every reachable state, whatever went wrong before, a started saga has a continuation that breaks no condition and ends it, confirmed or FAILED with a standing failure, if and only if it is not a FAILED deposit for which nothing but credits stands |
| `SagaProgress.DueCanEnd` | apps/transaction-service/src/core/repositories/transaction.repository.ts:264-331 | a saga that was never given up unduly can always end, and a clean run of it extends to a clean run that has ended |
| `SagaProgress.StuckLasts` | apps/transaction-service/src/core/repositories/transaction.repository.ts:222-244 | a FAILED deposit for which nothing but credits stands stays so through every continuation that breaks no condition |
| `SagaProgress.LiveKeeps` | apps/user-service/src/core/repositories/balance.repository.ts:60-90 | every step keeps: an account has its balance in every currency, and every applied order has its success report in the outbox |
| `SagaInvariant.FlowKeeps` | apps/transaction-service/src/processes/kafka/kafka-process.service.ts:28-172 | every step keeps: messages repeat outbox rows, replies answer an order truthfully, processed keys are those of the right side, BALANCE_UPDATED has a credit and FAILED a standing failure, or a note in the history that the saga was given up unduly |
| `SagaInvariant.OrderMessage` | apps/transaction-service/src/core/repositories/transaction.repository.ts:139-153 | every order on its way carries the account, currency and amount of a settled transaction, and names an event that is in the outbox |
| `SagaInvariant.ReplyMessage` | apps/user-service/src/feat/balance/balance-kafka.service.ts:67-73 | every reply names an order the ledger really sent; a success reply implies a credit |
| `SagaInvariant.HandleOrderKeeps` | apps/user-service/src/core/repositories/balance.repository.ts:46-90 | handling an order, with any fault, keeps the flow invariant |
| `SagaTokens.ConservedKeeps` | apps/transaction-service/src/core/repositories/transaction.repository.ts:287-323 | every step keeps the number of tokens of every started saga at one plus the conditions broken for it |
| `SagaTokens.CommitReplyMoves` | apps/transaction-service/src/core/repositories/transaction.repository.ts:293-323 | a retry turns a failure report into one new outbox row; every other commit of a reply moves no token |
| `SagaTokens.PublishOrderMoves` | apps/transaction-service/src/processes/outbox/outbox-worker.service.ts:29-39 | the first publication of a row turns it into an order; each further one, under its fresh key, adds an order |
| `SagaTokens.HandleOrderMoves` | apps/user-service/src/core/repositories/balance.repository.ts:60-90 | applying an order turns it into a credit; applying a reported one adds a credit |
| `SagaTokens.ReportFailureMoves` | apps/user-service/src/feat/balance/balance-kafka.service.ts:61-85 | reporting an order turns it into a failure report; reporting an applied or reported one adds a report |
| `SagaTokens.NothingBeforeStart` | apps/transaction-service/src/core/repositories/transaction.repository.ts:98-157 | before its first order a saga has no row, no message and no credit |
| `SagaMoney.MoneyKeeps` | apps/user-service/src/core/repositories/balance.repository.ts:64-76 | every step keeps balances equal to the sum of applied orders, totals equal to deposits, and no balance negative |
| `SagaMoney.ResetMoney` | apps/user-service/src/core/repositories/balance.repository.ts:225-227 | a reset starts the sums anew |
| `SagaWitness.RepublishedTwice` | apps/transaction-service/src/processes/outbox/outbox-worker.service.ts:29-39 | a run whose one broken condition is the second publication of an order pays a deposit of 100 out twice |
| `SagaWitness.ReportRepublishedTwice` | apps/transaction-service/src/processes/outbox/outbox-worker.service.ts:29-39 | the same for the second publication of a failure report |
| `SagaWitness.HandledAfterReportTwice` | apps/user-service/src/feat/balance/balance-kafka.service.ts:61-85 | the same for an order applied after it was reported failed |
| `SagaWitness.ReportedAfterAppliedTwice` | apps/user-service/src/feat/balance/balance-kafka.service.ts:61-85 | the same for an order reported failed after it was applied |
| `SagaWitness.ReportedTwiceTwice` | apps/user-service/src/feat/balance/balance-kafka.service.ts:61-85 | the same for an order reported failed at two deliveries |
| `SagaWitness.FailedYetCredited` | apps/transaction-service/src/core/repositories/transaction.repository.ts:274-323 | a run that breaks no condition and ends with the deposit FAILED and credited: the second of two interleaved deliveries of its failure report gives it up after the first made the retry |
| `SagaWitness.FailedForEver` | apps/transaction-service/src/core/repositories/transaction.repository.ts:222-244 | from there no continuation that breaks no condition ends the deposit |
| `SagaWorkers.WorkersAgree` | libs/outbox/abstracts/outbox-worker.abstract.ts:37-68 | however the saga and one worker on each side interleave, crashes included: a worker sees the rows and marks of its outbox, and its deliveries are the publications of the saga |
| `SagaWorkers.PublicationsBounded` | libs/outbox/abstracts/outbox-worker.abstract.ts:42-60 | the saga publishes a row once, and once more for each pass that delivered it and ended without its mark |
| `SagaWorkers.CleanIffHandlersAre` | libs/outbox/abstracts/outbox-worker.abstract.ts:42-60 | if no pass of the two workers ended without its mark, the run of the saga is clean if and only if no handling and no report of an order breaks a condition |
| `SagaOrigins.RowsExplained` | apps/transaction-service/src/core/repositories/transaction.repository.ts:30-96 | every ledger row of a run goes back to a DepositRub or TransferRub call with its account, amount, currency, key, payment and reference, both legs of a transfer to the same call, made with enough available; and every deposit that is not PENDING to a confirmed webhook for its payment, of the event its status says |
| `SagaOrigins.OrdersAsked` | apps/transaction-service/src/core/repositories/transaction.repository.ts:75-92 | every order on its way, so every one that moves money, carries the accounts and the amount of one client call of the run |
| `SagaOrigins.OrderedIsPaid` | apps/transaction-service/src/processes/webhook/yookassa-webhook.service.ts:30-68 | a deposit has an order, a message or a credit only if its payment was announced and confirmed as succeeded |
| `SagaOrigins.CallTakesEffect` | apps/transaction-service/src/processes/grpc/grpc-process.service.ts:113-179 | a call of a client with a new key and free ids records just what it asks for, any other changes nothing |
| `SagaOrigins.WebhookTakesEffect` | apps/transaction-service/src/processes/webhook/yookassa-webhook.service.ts:14-94 | in every run a confirmed success completes the pending deposit of its payment and writes its order, and a confirmed cancellation times it out |
| `SagaOrigins.RunUnique` | apps/transaction-service/src/core/repositories/transaction.repository.ts:30-96 | the unique indexes of the ledger hold in every run |
| `LedgerInvariant.DepositRubKeeps` | apps/transaction-service/src/processes/grpc/grpc-process.service.ts:113-124 | starting a deposit keeps the ledger invariant (legs paired, events match their transaction, row counts, FAILED only after maxRetry failures) |
| `LedgerInvariant.TransferRubKeeps` | apps/transaction-service/src/processes/grpc/grpc-process.service.ts:133-189 | starting a transfer keeps the ledger invariant |
| `LedgerInvariant.CompletedKeeps` | apps/transaction-service/src/core/repositories/transaction.repository.ts:98-157 | paying a deposit keeps the ledger invariant and gives it its one order |
| `LedgerInvariant.TimeoutKeeps` | apps/transaction-service/src/core/repositories/transaction.repository.ts:159-195 | timing a deposit out keeps the ledger invariant |
| `LedgerInvariant.MarkKeeps` | apps/transaction-service/src/core/repositories/transaction.repository.ts:205-210 | marking any rows keeps the ledger invariant |
| `LedgerInvariant.UpdatedKeeps` | apps/transaction-service/src/core/repositories/transaction.repository.ts:405-444 | confirming a deposit or a transfer keeps the ledger invariant, although the transfer case does not look at the status |
| `LedgerInvariant.RecreateShape` | apps/transaction-service/src/core/repositories/transaction.repository.ts:359-395 | both legs are counted and failed together; the result is the same whichever row comes back first; a retry fails only on a taken id or key, giving up on nothing |
| `LedgerInvariant.RecreateKeeps` | apps/transaction-service/src/core/repositories/transaction.repository.ts:264-331 | a retry or a last failure keeps the ledger invariant |
| `LedgerInvariant.ApplyReplyShape` | apps/transaction-service/src/core/repositories/transaction.repository.ts:280-323 | exactly what a reply does to the ledger after its lookup: confirm, retry, give up or nothing; with a key inserted meanwhile giving up is the only one left |
| `LedgerInvariant.ApplyReplyKeeps` | apps/transaction-service/src/processes/kafka/kafka-process.service.ts:28-172 | every reply keeps the ledger invariant, even if its key was inserted after it was looked up |
| `TransactionRepository.TransactionRepository.Create` | apps/transaction-service/src/core/repositories/transaction.repository.ts:18-28 | the tables afterwards; an existing key returns its row and changes nothing |
| `TransactionRepository.TransactionRepository.CreateTransfer` | apps/transaction-service/src/core/repositories/transaction.repository.ts:30-96 | the tables afterwards: both legs and the order, or nothing |
| `TransactionRepository.TransactionRepository.SetStatusCompletedAndCreateOutboxEvent` | apps/transaction-service/src/core/repositories/transaction.repository.ts:98-157 | the tables afterwards, and each error; the ledger invariant is kept for every retry limit |
| `TransactionRepository.TransactionRepository.SetStatusTimeout` | apps/transaction-service/src/core/repositories/transaction.repository.ts:159-195 | the tables afterwards, and each error; the ledger invariant is kept for every retry limit |
| `TransactionRepository.TransactionRepository.MarkEventsAsProcessed` | apps/transaction-service/src/core/repositories/transaction.repository.ts:205-210 | a row is marked afterwards iff it was before or is named; nothing else changes, and the ledger invariant is kept |
| `TransactionRepository.TransactionRepository.RetryOrFail` | apps/transaction-service/src/core/repositories/transaction.repository.ts:287-323 | counter, copied event and key together; or FAILED on all counted rows, committed without a key; an error changes nothing |
| `TransactionRepository.TransactionRepository.RecreateOutboxEvent` | apps/transaction-service/src/core/repositories/transaction.repository.ts:264-331 | the error of exhausted retries comes with a committed FAILED and no processed key, every other error with no change |
| `TransactionRepository.TransactionRepository.RecreateTransferOutboxEvent` | apps/transaction-service/src/core/repositories/transaction.repository.ts:333-403 | the same for both legs, found by a query that returns two rows; for either order of the returned rows |
| `TransactionRepository.KafkaProcessService.ProcessingCreditingSuccess` | apps/transaction-service/src/processes/kafka/kafka-process.service.ts:28-60 | the ledger after the handler, its invariant kept for the reply of an order really sent; a missing or empty header and every error leave it as it was |
| `TransactionRepository.KafkaProcessService.ProcessingCreditingFailed` | apps/transaction-service/src/processes/kafka/kafka-process.service.ts:62-98 | the same, exhausted retries included |
| `TransactionRepository.KafkaProcessService.ProcessingTransferSuccess` | apps/transaction-service/src/processes/kafka/kafka-process.service.ts:100-133 | the ledger after the handler |
| `TransactionRepository.KafkaProcessService.ProcessingTransferFailed` | apps/transaction-service/src/processes/kafka/kafka-process.service.ts:135-172 | the ledger after the handler |
| `TransactionRepository.YookassaWebhookService.Processing` | apps/transaction-service/src/processes/webhook/yookassa-webhook.service.ts:14-94 | which event changes what; a payment the provider does not confirm changes nothing; the call succeeds if and only if it settled something or the event is unknown; the ledger invariant is kept |
| `TransactionRepository.GrpcProcessService.DepositRub` | apps/transaction-service/src/processes/grpc/grpc-process.service.ts:33-131 | a deposit row appears only after validation and with a payment id; success means the key is taken; a positive amount keeps the ledger invariant |
| `TransactionRepository.GrpcProcessService.TransferRub` | apps/transaction-service/src/processes/grpc/grpc-process.service.ts:133-189 | no transfer to oneself and none above the reported balance; success means the key is taken; a positive amount keeps the ledger invariant |
| `LedgerCalls.DepositRubDoes` | apps/transaction-service/src/processes/grpc/grpc-process.service.ts:113-124 | the deposit row carries the account, the amount, the key and the payment of the call, and nothing else changes; with a taken id, key or payment nothing does |
| `LedgerCalls.CreateTransferDoes` | apps/transaction-service/src/core/repositories/transaction.repository.ts:30-96 | with a new key and free ids: the outgoing leg is the sender's with the negative amount, the incoming one the receiver's under key_in, the order names both accounts and the amount; otherwise nothing changes |
| `LedgerCalls.TransferRubDoes` | apps/transaction-service/src/processes/grpc/grpc-process.service.ts:133-179 | the same for the call of the client; a transfer to oneself, or above what is available, changes nothing |
| `LedgerCalls.SucceededDoes` | apps/transaction-service/src/processes/webhook/yookassa-webhook.service.ts:30-68 | a confirmed success makes the pending deposit COMPLETED and adds exactly its order |
| `LedgerCalls.CanceledDoes` | apps/transaction-service/src/processes/webhook/yookassa-webhook.service.ts:70-94 | a confirmed cancellation makes the pending deposit TIMEOUT and writes no order |
| `AccountsLaws.ExecuteShape` | apps/user-service/src/core/repositories/balance.repository.ts:143-222 | an order is applied exactly when it is new and admissible (rows exist, not blocked, enough money) and its reply id is free; then the money moves, the key is remembered and the reply written; a repeated key changes nothing |
| `AccountsLaws.SelfTransferRollsBack` | apps/user-service/src/core/repositories/balance.repository.ts:168-182 | a transfer to the sender itself finds one row instead of two: its handler commits nothing whatever the header and the fault, and throws unless the key was processed |
| `AccountsLaws.ExecuteErrors` | apps/user-service/src/core/repositories/balance.repository.ts:143-222 | which error a new order fails with: the first test that does not hold |
| `AccountsLaws.HandledIs` | apps/user-service/src/feat/balance/balance-kafka.service.ts:23-166 | the tables after a whole handler, by its header, its order and its faults: the order applied when new and admissible, and a failure reported unless the try block ended well |
| `AccountsLaws.CreateAccountDoes` | apps/user-service/src/core/repositories/account.repository.ts:16-39 | a new account gets one empty, unblocked balance in each of the three currencies |
| `AccountsLaws.MovedNonNegative` | apps/user-service/src/core/repositories/balance.repository.ts:189-200 | an admissible order makes no balance negative |
| `AccountsLaws.ExecuteTotals` | apps/user-service/src/core/repositories/balance.repository.ts:38-223 | an order makes no balance negative, and only a deposit applied for the first time changes a total, by its amount |
| `AccountsLaws.HandledTotals` | apps/user-service/src/feat/balance/balance-kafka.service.ts:23-166 | a handler, whatever fails in it, makes no balance negative, and a transfer changes no total |
| `AccountsLaws.MovedTotal` | apps/user-service/src/core/repositories/balance.repository.ts:192-200 | a deposit adds its amount to one currency total, a transfer leaves every total alone |
| `BalanceRepository.BalanceRepository.DepositAndCreateOutboxEvent` | apps/user-service/src/core/repositories/balance.repository.ts:38-91 | all or nothing, with each error; no balance becomes negative, and the total of the currency rises by the amount exactly when the key is new and the call succeeds |
| `BalanceRepository.BalanceRepository.TransferAndCreateOutboxEvent` | apps/user-service/src/core/repositories/balance.repository.ts:133-223 | all or nothing, with each error; no balance becomes negative and every currency total stays |
| `BalanceRepository.BalanceRepository.MarkEventsAsProcessed` | apps/user-service/src/core/repositories/balance.repository.ts:126-131 | a row is marked afterwards iff it was before or is named; nothing else changes |
| `BalanceRepository.BalanceRepository.ResetAllBalances` | apps/user-service/src/core/repositories/balance.repository.ts:225-227 | all amounts and totals zero; no row, key or event changes |
| `BalanceRepository.BalanceKafkaService.Handle` | apps/user-service/src/feat/balance/balance-kafka.service.ts:23-166 | the tables after either handler: try block, and catch block on any throw, even one after the commit; no balance becomes negative and a transfer changes no total |
| `LocksTheorems.Serializable` | apps/user-service/src/core/repositories/balance.repository.ts:143-222 | whatever the interleaving of statements, the committed tables are those of the atomic transactions in commit order, and no idempotency key takes effect twice; which orders are committed is LocksOutcomes.OrdersAnswered |
| `LocksOutcomes.RefusedFor` | apps/user-service/src/core/repositories/balance.repository.ts:147-190 | a statement turns an order down only if, on the tables of that moment, its key is processed, it is not admissible or its reply id is taken; and no reset is turned down |
| `LocksOutcomes.OrdersAnswered` | apps/user-service/src/core/repositories/balance.repository.ts:133-223 | in every run an order that has ended is in the log, or was aborted, or was turned down for such a reason |
| `LocksOutcomes.EntriesCommitted` | apps/user-service/src/core/repositories/balance.repository.ts:133-223 | every entry of the log is the order of a transaction that ended applied |
| `LocksOutcomes.AloneIsAtomic` | apps/user-service/src/core/repositories/balance.repository.ts:38-223 | a transaction that runs alone ends, does what the atomic one does, and is applied if and only if there is no reason against it |
| `LocksTheorems.TestedBalanceHolds` | apps/user-service/src/core/repositories/balance.repository.ts:189-200 | the sender balance a transfer tested is still the balance when it decrements, so its updates cannot fail any more |
| `LocksTheorems.WaitsRise` | apps/user-service/src/core/repositories/balance.repository.ts:152-165 | because rows are locked in account order, every wait goes up in (stage, account) |
| `LocksTheorems.SomeoneRuns` | apps/user-service/src/core/repositories/balance.repository.ts:152-165 | from any unfinished transaction the waits lead to one that can step |
| `LocksTheorems.NoDeadlock` | apps/user-service/src/core/repositories/balance.repository.ts:48-55 | any finite set of concurrent deposits and transfers can be scheduled to the end without aborting one |
| `LocksProofs.CommitRefines` | apps/user-service/src/core/repositories/balance.repository.ts:192-221 | a commit does exactly what the atomic transaction would do on the tables at that moment |
| `LocksProofs.ResetRefines` | apps/user-service/src/core/repositories/balance.repository.ts:225-227 | a reset that has locked all rows does at its commit exactly what the atomic reset would do |
| `LocksProofs.UpdatesSucceed` | apps/user-service/src/core/repositories/balance.repository.ts:192-200 | the updates of a transaction that passed its tests succeed and write what the order asks for |
| `LocksProofs.PassesIff` | apps/user-service/src/core/repositories/balance.repository.ts:168-190 | the tests on the returned rows (two rows, none blocked, enough money) establish exactly that the transfer is admissible, sender and receiver being different included |
| `LocksProofs.RunKeeps` | apps/user-service/src/core/repositories/balance.repository.ts:143-222 | every statement keeps the lock invariant, and what it commits is one atomic transaction |
| `OutboxWorker.AbstractOutboxWorkerService.ProcessOutbox` | libs/outbox/abstracts/outbox-worker.abstract.ts:37-68 | one pass delivers the oldest pending rows in order, each under a header key no delivery had before, marks just the acknowledged ones, and releases its guard whatever fails; row by row: a row is marked if and only if it was, or was found, acknowledged and the mark succeeded, and whatever is marked was delivered; a pass under way makes the tick do nothing |
| `OutboxWorker.SelectIs` | libs/outbox/abstracts/outbox-worker.abstract.ts:49-56 | whatever the outcomes are, every row with a wanted one is selected, right after the selected rows before it |
| `OutboxWorker.Selected` | libs/outbox/abstracts/outbox-worker.abstract.ts:49-56 | and a row is selected only with a wanted outcome |
| `OutboxWorker.FoundMarked` | libs/outbox/abstracts/outbox-worker.abstract.ts:49-60 | of the rows a pass found exactly those are marked whose publication was acknowledged, if the mark succeeds |
| `OutboxWorker.GoodPass` | libs/outbox/abstracts/outbox-worker.abstract.ts:42-60 | a pass in which all succeeds removes exactly the first rows of the pending list |
| `OutboxWorker.PassesPublish` | libs/outbox/abstracts/outbox-worker.abstract.ts:42-60 | k good passes publish the first k * limit pending rows in order, once each |
| `OutboxWorker.Drained` | libs/outbox/abstracts/outbox-worker.abstract.ts:42-60 | n pending rows are all published, oldest first and once each, after ceil(n / limit) good passes and no sooner |
| `OutboxWorker.PassesForIs` | libs/outbox/abstracts/outbox-worker.abstract.ts:42-60 | the number of passes in OutboxWorker.Drained is ceil(n / limit) |
| `OutboxWorker.PendingInOrder` | apps/transaction-service/src/core/repositories/transaction.repository.ts:197-203 | an older pending row is published before a younger one |
| `OutboxRuns.PublishedAtMost` | libs/outbox/abstracts/outbox-worker.abstract.ts:37-68 | with ticks in mid-pass and crashes: passes never overlap, a marked row was delivered, and deliveries of a row <= 1 + passes that delivered it without marking it |
| `OutboxRuns.MarkedIsFinal` | libs/outbox/abstracts/outbox-worker.abstract.ts:42-60 | one worker never delivers a marked row again |
| `OutboxRuns.NextKeeps` | libs/outbox/abstracts/outbox-worker.abstract.ts:37-68 | every step accounts for each delivery by the mark, the pass under way or a pass without mark |
| `OutboxRuns.PassIsSteps` | libs/outbox/abstracts/outbox-worker.abstract.ts:37-68 | a pass with any outcomes is a tick, its publications and its finish: as these steps it leaves the same marks and deliveries |
| `BreakerLaws.NextRefines` | libs/proxy/client/abstracts/proxy-client.abstract.ts:107-206 | the five fields and the timer behave as a machine of three phases, with the same admissions |
| `BreakerLaws.ReachableStates` | libs/proxy/client/abstracts/proxy-client.abstract.ts:107-206 | half-open, probe in flight and an armed timer are the same; open has an opening time; 0 <= failures < threshold; the re-admission of a hung probe and the ignored duplicate failure are unreachable |
| `BreakerLaws.OneProbe` | libs/proxy/client/abstracts/proxy-client.abstract.ts:112-128 | at most one request a half-open period: before the next admission the probe is decided |
| `BreakerLaws.AdmissionAfterTrip` | libs/proxy/client/abstracts/proxy-client.abstract.ts:112-120 | with a monotone clock and no success since, an admission comes more than the reset time after a trip |
| `BreakerLaws.ClosedIff` | libs/proxy/client/abstracts/proxy-client.abstract.ts:146-200 | the circuit is closed if and only if fewer failures than the threshold followed the last success, and then the counter is their number |
| `BreakerLaws.CounterCounts` | libs/proxy/client/abstracts/proxy-client.abstract.ts:162-206 | in every state the counter is the number of failures since the last success or trip |
| `BreakerLaws.BoundedRecovery` | libs/proxy/client/abstracts/proxy-client.abstract.ts:132-144 | from every reachable state, after probe timeout plus reset time (plus timer lateness) of quiet the next request is admitted |
| `ProxyClient.AbstractProxyClient.IsCircuitOpen` | libs/proxy/client/abstracts/proxy-client.abstract.ts:107-130 | from a valid state: rejected exactly unless healthy or tripped longer than the reset time, and the phase moves as in the three-phase machine; validity is kept |
| `ProxyClient.AbstractProxyClient.Success` | libs/proxy/client/abstracts/proxy-client.abstract.ts:146-160 | from a valid state: healthy with no failures, no timer left |
| `ProxyClient.AbstractProxyClient.Failure` | libs/proxy/client/abstracts/proxy-client.abstract.ts:162-206 | from a valid state: trips when probing or at the threshold, else counts one more; validity is kept |
| `ProxyClient.AbstractProxyClient.FireTimer` | libs/proxy/client/abstracts/proxy-client.abstract.ts:137-143 | a due timer trips the probing breaker, an early one does nothing; validity is kept |
| `Otp.OtpService.Generate` | apps/user-service/src/core/otp/otp.service.ts:39-64 | issued if and only if no cooldown is running; then the digest, no attempts and both lifetimes are stored; no other account or purpose is touched |
| `Otp.OtpService.Verify` | apps/user-service/src/core/otp/otp.service.ts:66-94 | accepted if and only if a code is stored, alive, tried fewer times than allowed, and its digest is the given one; then both keys are gone; no other account or purpose is touched |
| `Otp.VerifyDecides` | apps/user-service/src/core/otp/otp.service.ts:66-94 | each outcome and what it leaves, told of the stored fields |
| `Otp.AcceptedIff` | apps/user-service/src/core/otp/otp.service.ts:53-93 | over runs: a code is accepted if and only if it is the last one issued, presented within its lifetime, neither accepted nor used up, and missed fewer times than allowed |
| `Otp.FirstTryAccepted` | apps/user-service/src/core/otp/otp.service.ts:53-93 | the first try after a code was issued, in time and with that code, is accepted |
| `Otp.IssuedIff` | apps/user-service/src/core/otp/otp.service.ts:43-61 | over runs: a code is issued if and only if the cooldown of the last one is over or a code was accepted since |
| `Otp.ComparisonsBounded` | apps/user-service/src/core/otp/otp.service.ts:77-93 | from any state and with any calls, comparisons <= attemptsCount per issued code and acceptances <= issued codes |
| `Otp.CooldownStands` | apps/user-service/src/core/otp/otp.service.ts:43-48 | without an acceptance the cooldown of the last code is still in place |
| `Otp.IssuesSpaced` | apps/user-service/src/core/otp/otp.service.ts:43-61 | n codes issued without an acceptance take at least (n - 1) cooldowns |
| `Otp.IssueGap` | apps/user-service/src/core/otp/otp.service.ts:43-61 | two codes with no acceptance between them are a cooldown apart, whatever came before |
| `Otp.RateBound` | apps/user-service/src/core/otp/otp.service.ts:39-94 | from any state, a run of length T with no acceptance makes at most attemptsCount * (T / cooldownTtl + 1) comparisons plus those a code stored before still allows |
| `Otp.RateBoundFromEmpty` | apps/user-service/src/core/otp/otp.service.ts:39-94 | from an empty slot the bound is attemptsCount * (T / cooldownTtl + 1) |
| `Otp.CodeKeysDiffer` | apps/user-service/src/core/otp/otp.service.ts:40-41 | keys of different accounts or purposes differ |
| `Otp.CodeKeyIsCooldownKeyIff` | apps/user-service/src/core/otp/otp.service.ts:40-41 | a code key equals a cooldown key if and only if the purposes agree and one id is the other followed by ":cooldown" |
| `Paging.UsersRepository.FindAll` | apps/user-service/src/core/repositories/users.repository.ts:56-105 | the page is the next rows up to the limit, with a cursor exactly when more follow |
| `Paging.Filtered` | apps/user-service/src/core/repositories/users.repository.ts:56-105 | the list has exactly the rows of the table that the filter keeps |
| `Paging.FilteredInOrder` | apps/user-service/src/core/repositories/users.repository.ts:56-105 | and has them in the order of the table, each once |
| `Paging.CursorContinues` | apps/user-service/src/core/repositories/users.repository.ts:70-73 | a cursor leads to exactly the matching rows after it |
| `Paging.PagesCoverTheList` | apps/user-service/src/core/repositories/users.repository.ts:56-105 | following the cursor from the start ends, and the pages, all but the last full, concatenate to the whole filtered list |
| `Money.RoundTrip` | shared/extensions/bigint.extension.ts:8-18 | every amount of either sign is read back from its text |
| `Money.TextLooks` | shared/extensions/bigint.extension.ts:8-18 | a minus sign just for negative amounts, a point just if there are cents and then two digits, and no needless leading zero |

## Left out

- `SagaTheorems.ExactlyOnce`: conditional, because the unconditional claim is false (`SagaWitness`); `SagaTheorems.ExactlyOnceIff` gives the exact condition for a saga with nothing left on its way, `SagaTheorems.NothingLost` for every state, and `SagaTheorems.FailureStandsIff` the one of the status FAILED.
- `LocksTheorems.NoDeadlock`: covers deposits and transfers only; a concurrent `resetAllBalances` fixes no lock order, and `LocksTheorems.Serializable` is what is claimed about it.
- `Locks.Next`: the set of balance rows is fixed while transactions are under way, so account creation does not interleave with them.
- `Saga.DoCommitReply`: a deadlock between two ledger transactions that lock the legs of a transfer in different orders shows only as a rollback of one of them.
- `TransactionRepository.YookassaWebhookService.Processing`: only that the call is rejected. The error handlers read the variable they are about to initialise, so the error thrown is not the one intended.
- `Otp.RateBound`: each call is atomic. Interleaved calls, between whose reads and increments others come, are not bounded by it.
- `Paging.PagesCoverTheList`: for a table that does not change and distinct creation times, which the query's order needs; the user-name filter is any predicate, an empty cursor is no cursor, and the limit is at least 1 as the request validation demands.
- `BreakerLaws.BoundedRecovery`: for a monotone clock, and with the lateness of the probe timer as a parameter.
- Identifiers are numbers and fresh identifiers may collide (the insert then fails); one balance row for each account and currency, as account creation makes them; amounts are positive, as the request validation demands.
- Column width: a 64-bit overflow of a balance shows only as a fault that rolls the transaction back.
- Text of amounts in payloads: the integer is carried over as it is. A payload column is never null.
- Notifications over RabbitMQ: they are emitted without being awaited, after the commit, and take no part in the saga.
- Cleaning up the outbox and the processed keys: rows and keys are never removed, as in the source.
- `toDollarsInt` (floating point), gateways, guards, mail, files, user cache, `findActive`, error mapping and logging: nothing to prove beyond their libraries.
- Code generation, SHA-256 and password hashing: digests are compared, never inverted, and codes may be guessed by the caller.
- Kafka partitions and consumer groups: any message may be delivered at any time, which includes whatever order they give.
