# Equilibra: a verified model

Equilibra is a payment ledger: Go services over Postgres, Kafka and Redis. Money moves by
double-entry transactions; every ledger entry is announced by a row of an outbox table; relay
copies carry these rows to Kafka; a notification service deduplicates them in Redis, publishes
them, and hands them to WebSocket clients. This project models that path from the first
database statement to the client's queue and proves what holds in every interleaving of calls,
copies and failures.

`dafny verify dfyconfig.toml` checks everything.

## How the model is built

* **One specification of the money operations.** `Operations.AtomicOp` gives tables and result
  of Transfer, Deposit, Withdraw and Reverse as if each ran alone. `LedgerLaws`, `Bookkeeping`,
  `Balances` and `Retries` prove the laws of serial runs about it. `Promises` says what each call
  answers and does in the call's own arguments, without that specification.
* **Concurrency.** `Machine` is the state machine of all calls in progress, statement by
  statement, with row locks, the lock on the idempotency key, id sequences that no rollback
  resets, commits with unknown outcome, relay copies and the Kafka topic. `Isolation`,
  `Serializability`, `Sequencing`, `RelayOrder` and `EndToEnd` prove its runs equivalent to
  serial ones in commit order, free of deadlock, and ordered per account all the way to the
  topic; so every law of serial runs holds in every reachable state. `Draining` shows that the
  outbox can always be published.
* **The same code, imperatively.** `Database`, `Service` and `RelayLoop` are classes whose
  methods follow the Go code statement by statement, with faults anywhere; they are proved
  against the same specification functions. `History` and `Pages` are about the account history.
* **Notifications.** `Notifications` is a second state machine: workers, restarts, a clock, Redis
  keys with expiry, commands that fail before or after taking effect. `Leases` and
  `Resending` prove what the leases guarantee. `Processor` and `Consumer` are the code of the claim protocol and of the
  offset handling, next to arbitrary other copies. `Progress` shows that no worker is ever stuck.
  `Messages` is what travels through Kafka. `Notified` joins both machines, down to
  the order in which an account's notifications are accepted.
* **The hub.** `Hub` is the registry of bounded client queues. Send is cut into its atomic parts
  and each part keeps the invariant, with other hub operations in between.
* **Machine integers.** Amounts are 64-bit integers, sums are unbounded until they are read, and
  the comparison of balance and amount wraps around as in the code, in the specification, the
  state machine and the classes alike. `MachineIntegers` says exactly when unbounded integers
  would give the same. Ids are unbounded. Times are milliseconds.

## Where the code does less than one might expect

* A reused key can mark a transaction reversed without moving money, because a replay is
  recognised by endpoints and amount only and Reverse marks the original after a replay too.
  `Retries.ReusedKeyReversesNothing` is such a run; `Balances.ReversedHasReversalExactly` says
  exactly when it cannot happen, and `Balances.BalanceIsWhatIsInForce` what balances are in general.
* Repeating a Reverse with its own key is an error, not a replay (`Retries.RepeatedReverseIsRefused`).
* Outbox ids are not in commit order (`OutOfOrder.IdsNeedNotFollowCommits`). docs/architecture.md
  (lines 87 and 100-103) attributes the order of events to the partition key and to having one
  relay at a time; the proofs of the order within an account also use the account row locks of
  the ledger.
* The 64-bit balance test is wrong for balances below amount - 2^63. Such a balance can be reached:
  in `MachineIntegers.WrappedDebitOverdraws` a user account is overdrawn by an ordinary transfer.
  That no ordinary debit leaves an account below zero holds exactly as long as no subtraction
  wraps around (`Balances.OrdinaryDebitLeavesNoDebt`). For the other overdraft law, which allows
  for reversals, this suffices (`Balances.NoOverdraft`) but is not needed
  (`MachineIntegers.WrapWithoutOverdraft`); per call it is needed where reversals took at most
  2^63 from the account (`Balances.WrapDecidesOverdraft`). With (N + 1) * M <= 2^63 nothing wraps
  around (`MachineIntegers.BoundedRunsAreExact`).
* With batch size 0, which the configuration admits, the relay loop never sleeps and publishes
  nothing (`RelayLoop.RelayCopy.Run`).
* An owner slower than its lease can cause a second notification even when no command fails
  (`Leases.SlowOwnerPublishesTwice`). Exactly when a further notification is still possible is
  said by `Resending.SentAgainExactly`: some worker owns the event unpublished, or its key runs out.

## Model

| member | source | states |
|---|---|---|
| `Operations.SerialPrefix` | internal/service/service.go:293-463 | every prefix of a serial run of calls is itself a serial run |
| `LedgerLaws.ChangeIsApplicable` | internal/service/service.go:293-463 | in a sound ledger every call does one of four things: nothing, mark an original, add a transaction, or add a reversal and mark its original; the guards that the chosen one needs hold |
| `LedgerLaws.SoundChange` | internal/service/service.go:299-330 | each of these changes keeps keys, transactions and reversal pairs consistent |
| `LedgerLaws.SerialRunsAreSound` | internal/service/service.go:299-330 | after any serial run every reversal points to a non-reversal with swapped endpoints, equal amount and status reversed, no original has two reversals, and no reversal is itself reversed |
| `Bookkeeping.EveryTransactionHasTwoEntries` | internal/service/service.go:421-427 | every committed transaction has exactly two entries, -amount on its source and +amount on a different destination of the same currency |
| `Bookkeeping.Conservation` | internal/service/service.go:374-427 | entries sum to zero over every selection that never separates two entries of one transaction and currency |
| `Bookkeeping.MoneyIsConserved` | internal/service/service.go:374-427 | the sums per transaction, per currency and overall are zero in every reachable ledger |
| `Bookkeeping.EveryEntryIsAnnouncedOnce` | internal/service/service.go:429-460 | entries and outbox rows correspond one to one, and each row carries the account, amount, currency, kind, counterparty and original of its entry |
| `Bookkeeping.EventsSumToBalance` | internal/service/service.go:429-460 | the event amounts of an account add up to its balance |
| `Promises.TransferIsKept` | internal/service/service.go:128-175 | each error if and only if its condition on the arguments holds; otherwise the payment is settled: a mismatch exactly if the key is taken by a row with another source, destination or amount, a replay exactly if by a matching one, "not enough" exactly for a balance from amount - 2^63 to below amount, a failure exactly for an unreadable sum; else one new row of kind transfer with just these fields, the answer telling them one by one, `amount` moved from `from` to `to`, and no other balance changed |
| `Promises.DepositIsKept` | internal/service/service.go:179-232 | the same for Deposit: money goes from the system account with the code channel + "_IN_" + currency, which may go below zero, to the user |
| `Promises.WithdrawIsKept` | internal/service/service.go:236-289 | the same for Withdraw: money goes from the user to the system account with the code channel + "_OUT_" + currency |
| `Promises.ReverseIsKept` | internal/service/service.go:293-337 | "not found" if and only if the id is unknown, "incomplete" if and only if the row is reversed, "reversal" if and only if it is a completed reversal; otherwise settled between swapped endpoints with the same amount and no test of the balance, and the original becomes reversed, and no other row, whether the answer is a replay or not |
| `Promises.PostSettles` | internal/service/service.go:340-463 | the transfer core settles a payment so, by the key, the row under it, the balance and the type of the source |
| `Promises.EveryCallKeepsItsPromise` | internal/service/service.go:128-337 | in every serial run, every call on the tables that the calls before it have left |
| `Balances.BalanceIsWhatIsInForce` | internal/service/service.go:307-330 | without any hypothesis on keys, a balance is the sum of completed non-reversal transactions plus that of originals marked reversed without a reversal |
| `Balances.OrphansAreReplayedReversals` | internal/service/service.go:384-405 | those originals are exactly the ones whose Reverse call was answered by a replay |
| `Balances.ReversedHasReversalExactly` | internal/service/service.go:307-330 | every reversed transaction has a reversal if and only if no Reverse was given a key under which a transfer matches the reversal, which can be seen before the call |
| `Balances.InForceUnderFreshKeys` | internal/service/service.go:307-330 | under that condition a balance is exactly the sum of what is completed and not a reversal |
| `Balances.NoOverdraft` | internal/service/service.go:407-419 | as long as no subtraction of the run wraps around, a user balance is never below minus the amounts debited from it by reversals |
| `Balances.OrdinaryDebitLeavesNoDebt` | internal/service/service.go:412-419 | no ordinary debit of a run leaves its user account below zero, if and only if no subtraction of the run wraps around |
| `Balances.OrdinaryDebitExactly` | internal/service/service.go:412-419 | an accepted ordinary debit leaves the user account at zero or above if and only if the balance was at least amount - 2^63 |
| `Balances.WrapDecidesOverdraft` | internal/service/service.go:412-419 | where reversals took at most 2^63 from the account, an accepted ordinary debit keeps the law of the overdraft if and only if it does not wrap around |
| `Balances.BalanceBound` | internal/service/service.go:421-427 | N transactions of at most M each keep every balance within N times M |
| `Balances.Int64TestIsExact` | internal/service/service.go:407-412 | while (N + 1) * M stays within 2^63 balances fit a 64-bit integer and the machine subtraction decides balance < amount |
| `Balances.Int64TestWithoutBound` | internal/service/service.go:412 | on a readable balance and without the bound, the machine test is right if and only if the balance is at least amount - 2^63 |
| `MachineIntegers.CallDeviatesExactly` | internal/service/service.go:407-419 | a call does and returns what it would with unbounded integers if and only if the sum it reads fits 64 bits and the subtraction does not wrap around |
| `MachineIntegers.RunsAgreeExactly` | internal/service/service.go:407-419 | a whole run is one on unbounded integers, with the same tables, if and only if no call of it deviates |
| `MachineIntegers.BoundedRunsAreExact` | internal/service/service.go:407-419 | while (N + 1) * M stays within 2^63, for N transactions and calls of at most M each, no call of the run deviates and none wraps around |
| `MachineIntegers.WrappedDebitOverdraws` | internal/service/service.go:412 | five calls with amounts of at most 2^63 - 1 after which a transfer of 2 has been accepted from a balance of 1 - 2^63 |
| `MachineIntegers.WrapWithoutOverdraft` | internal/service/service.go:412 | a run whose last call wraps around and yet keeps the law of the overdraft, because reversals took more from the account |
| `MachineIntegers.EveryDecisionIsExact` | internal/service/service.go:407-419 | in every interleaving, a call about to decide on the balance decides on 64-bit integers as on unbounded ones, within the bound |
| `Retries.DuplicateKeyIsAlwaysFound` | internal/service/service.go:383-388 | after a duplicate key the earlier row is always found: a call fails by itself if and only if the sum it reads is no 64-bit integer |
| `Retries.RowsStay` | internal/storage/querier.go:186-198 | rows are never deleted or changed, but for a status going from completed to reversed |
| `Retries.KeyHasOrigin` | internal/storage/querier.go:120-141 | a taken key was taken by an earlier successful call with that key |
| `Retries.IdenticalRetryReplays` | internal/service/service.go:384-398 | an identical Transfer, Deposit or Withdraw returns the first result again, marked as replayed, whatever the balance; only its status may have become reversed |
| `Retries.RepeatedReverseIsRefused` | internal/service/service.go:307-309 | a repeated Reverse of the same transaction is refused, not replayed |
| `Retries.RowAfterPost` | internal/service/service.go:378-463 | a call that posts records its transaction under its key, and a Reverse marks its original |
| `Retries.RetriesLeaveNoMark` | internal/service/service.go:378-405 | erasing from a run all Transfer, Deposit and Withdraw calls whose key was taken leaves transactions, keys, entries and outbox unchanged |
| `Retries.ErrorsLeaveNoMark` | internal/storage/storage.go:123-133 | erasing all calls that returned an error leaves the run serial, with equal results of the others and equal tables, key index included |
| `Retries.DisciplinedKeysAreFresh` | internal/service/service.go:384-398 | if keys are only reused for the identical call, every reversed transaction has its reversal |
| `Retries.ReusedKeyReversesNothing` | internal/service/service.go:571-575 | the run Transfer(A,B,100,k1), Transfer(B,A,100,k2), Reverse(tx1,k2) marks a transaction reversed and moves no money |
| `Ordering.SortIsOrderedPermutation` | internal/storage/querier.go:272-279 | ORDER BY keeps the rows and puts them in order |
| `Ordering.BatchIsOldest` | internal/storage/querier.go:272-300 | a batch consists of unpublished rows, ascending, and no unpublished row left out has a smaller id than one in it |
| `Ordering.BatchOfAccount` | internal/storage/querier.go:272-300 | within one account a batch is a prefix of the unpublished rows in commit order |
| `Isolation.StatementIsLocal` | internal/service/service.go:340-463 | every statement of a call keeps the facts on which the rest of the call relies, and a refusal is what the call would get if run alone at that moment |
| `Isolation.CommitIsAtomic` | internal/storage/storage.go:110-134 | at its commit a call writes and returns exactly what it would if run alone at that moment |
| `Isolation.CommitKeepsOther` | internal/storage/querier.go:48-56 | the commit of one call does not disturb what another has read, because their locks are disjoint |
| `Isolation.RunsKeepCore` | internal/service/service.go:345-366 | in every interleaving locks stay exclusive, transaction ids unique, and the committed tables equal to the recorded serial run |
| `Serializability.InterleavingsAreSerializable` | internal/service/service.go:293-463 | every interleaved run ends in the tables which its calls leave when run one at a time in commit order, with the same results |
| `Serializability.SerialOrderIsRealTimeOrder` | internal/storage/storage.go:130-133 | what was committed by some moment is a prefix of what is committed later |
| `Serializability.StatementsDoNotFail` | internal/service/service.go:328-330 | in every interleaving a statement fails by itself if and only if it reads a balance that is no 64-bit integer; neither the unique index on reversal_of nor the guarded status update ever fails |
| `Serializability.LockOrder` | internal/service/service.go:345-358 | a call that holds a lock waits only for a later one: transaction row, lower account, higher account, key |
| `Serializability.HolderRanksLower` | internal/service/service.go:345-378 | the holder of a wanted lock waits, if at all, at a later stage than the waiter |
| `Serializability.DeadlockFreedom` | internal/service/service.go:345-378 | in every reachable state with an unfinished call some call can take its next step |
| `Serializability.EveryStepCounts` | internal/service/service.go:340-463 | every statement decreases the work left, so no schedule goes on forever without new calls |
| `Serializability.AllCallsCanFinish` | internal/service/service.go:340-463 | from every reachable state all calls in progress can be run to an end, with no database error but an unreadable balance |
| `Sequencing.IdsFollowCommitsPerAccount` | internal/service/service.go:345-358 | in every interleaving the outbox ids and entry ids of one account ascend in commit order, and outbox ids are unique |
| `OutOfOrder.IdsNeedNotFollowCommits` | internal/storage/querier.go:248-260 | across accounts they do not: a concrete interleaving of two deposits |
| `RelayOrder.SendingKeepsOrder` | internal/relay/relay.go:93-104 | sending a per-account prefix of a batch keeps the first occurrences in the topic a prefix of the committed rows |
| `RelayOrder.SplitsByAccount` | internal/relay/relay.go:140-158 | a topic that keeps the order of each message key keeps that of each account |
| `RelayOrder.LateRowsKeepOrder` | internal/relay/relay.go:80-104 | rows that arrive late keep the first occurrences in order, as all rows before them have arrived |
| `RelayOrder.ArrivalKeepsRelays` | internal/relay/relay.go:80-111 | records of a publish that was given up keep the order, and count towards its failed batch, whenever they arrive |
| `RelayOrder.RelayStepKeepsRelays` | internal/relay/relay.go:83-120 | every step and failure of any relay copy, late arrivals included, keeps: one lock holder, published rows sent, per-account order, bounded repetition |
| `EndToEnd.LogFollowsCommitOrder` | internal/relay/relay.go:83-120 | in every interleaving of calls, relay copies, failures and late arrivals the first occurrences of an account in the topic are a prefix of its events in commit order |
| `EndToEnd.RelaysLoseAndInventNothing` | internal/relay/relay.go:86-119 | published rows are in the topic, topic records are committed rows, and an event occurs at most 1 + (failed batches with it) times, late arrivals included |
| `EndToEnd.MaterialisedBalance` | internal/relay/relay.go:140-158 | adding up the first j distinct records of an account gives the balance after the j-th transaction that touched it |
| `EndToEnd.EveryRecordIsABalance` | internal/relay/relay.go:140-158 | after every number of distinct records a consumer holds some committed balance of the past |
| `EndToEnd.DrainedBalance` | internal/storage/querier.go:108-118 | once the rows of an account are published, its records are all its events and add up to the current balance |
| `Draining.EveryBacklogCanBeDrained` | internal/relay/relay.go:53-138 | from every reachable state, whatever the copies are doing or have left undone, relay steps alone can publish the whole outbox, if the batch size is not 0 |
| `Draining.EveryBalanceCanBeDrained` | internal/relay/relay.go:53-138 | so the topic is always relay steps away from holding the current balance of every account |
| `EndToEnd.ReachableLedgersObeyTheLaws` | internal/service/service.go:293-463 | pairing, double entry, conservation and in-force balances hold in every state of every interleaving, and so do the two overdraft laws under the condition that no subtraction wraps around, which the law of ordinary debits needs exactly |
| `EndToEnd.EveryAnswerIsAsPromised` | internal/service/service.go:128-463 | in every interleaving, every call answered with anything but a database error was answered so, on the tables of the moment at which it was committed or refused |
| `Database.Store.Begin` | internal/storage/storage.go:110-115 | a transaction starts from the committed tables |
| `Database.Store.Commit` | internal/storage/storage.go:130-133 | all writes become visible or none; after an error it may be either |
| `Database.Store.Rollback` | internal/storage/storage.go:117-121 | a rollback drops the writes of the transaction |
| `Database.Store.GetAccount` | internal/storage/querier.go:68-86 | the account row, or "not found" exactly when there is none |
| `Database.Store.GetAccountForUpdate` | internal/storage/querier.go:48-66 | the same, and the row is locked to the end of the transaction |
| `Database.Store.GetSystemAccountByCode` | internal/storage/querier.go:88-106 | the account with the unique code |
| `Database.Store.GetAccountBalance` | internal/storage/querier.go:108-118 | the scan computes the sum of the entries of the account, and fails if it is no 64-bit integer |
| `Database.Store.CreateTransaction` | internal/storage/querier.go:120-141 | inserts a completed transaction under a free key with the next id, which locks the key; a taken key changes nothing |
| `Database.Store.GetTransaction` | internal/storage/querier.go:143-162 | the transaction with the key |
| `Database.Store.GetTransactionByID` | internal/storage/querier.go:164-184 | the transaction with the id, whose row is locked |
| `Database.Store.UpdateTransactionStatus` | internal/storage/querier.go:186-198 | only a completed transaction changes; otherwise "not found" and no change |
| `Database.Store.CreateLedgerEntry` | internal/storage/querier.go:200-207 | appends one entry with the next id to an existing transaction |
| `Database.Store.GetAccountHistory` | internal/storage/querier.go:209-246 | the entries of the account below the cursor, descending, at most `limit`, each joined with its transaction |
| `Database.Store.EntriesBelow` | internal/storage/querier.go:216-224 | the scan selects exactly the entries of the account below the bound |
| `Database.Store.JoinTransactions` | internal/storage/querier.go:216-243 | one row for each entry, with source, destination, type and original of its transaction |
| `Database.Store.CreateOutboxEvent` | internal/storage/querier.go:248-260 | appends one unpublished row with the next id |
| `Database.Store.GetUnpublishedOutboxEvents` | internal/storage/querier.go:272-300 | the oldest unpublished rows by id, at most `limit` |
| `Database.Store.MarkOutboxEventsPublished` | internal/storage/querier.go:302-308 | marks exactly the listed rows |
| `Database.Store.TryLockOutbox` | internal/storage/querier.go:262-270 | answers at once whether the lock was free, and holds it to the end of the transaction |
| `Service.MoneyService.TransferCore` | internal/service/service.go:340-463 | the statements of the core leave exactly the tables and the result of the specification, every refusal is the right one, on a reliable database nothing else happens, and locks are taken in the order lower account, higher account, key |
| `Service.MoneyService.LockAccounts` | internal/service/service.go:344-376 | both rows are locked, the smaller id first, and the error names the account that is missing first, or the currencies |
| `Service.MoneyService.CheckBalance` | internal/service/service.go:407-419 | the 64-bit test, with its exemptions for system accounts and reversals, and its failure on an unreadable sum |
| `Service.MoneyService.PostNew` | internal/service/service.go:407-462 | a new transaction is posted if its balance is readable and covers it, with an answer that tells its row field by field, and otherwise refused or failed for that reason |
| `Service.MoneyService.Replay` | internal/service/service.go:383-402 | the row under the key answers, field by field, if its source, destination and amount match, and else there is a mismatch |
| `Service.MoneyService.WriteRows` | internal/service/service.go:421-462 | debit entry, credit entry, credit event and debit event, in this order, and nothing else |
| `Service.MoneyService.EndTx` | internal/storage/storage.go:123-133 | a failed body changes nothing; a failed commit has either outcome |
| `Service.MoneyService.Transfer` | internal/service/service.go:128-175 | the whole call equals the atomic specification of Transfer, with its order of error checks, keeps the tables sound, and keeps the promise proved in Promises |
| `Service.MoneyService.TransferBody` | internal/service/service.go:140-172 | the transaction body of Transfer, and the order of its locks |
| `Service.MoneyService.Deposit` | internal/service/service.go:179-232 | the whole call equals the atomic specification of Deposit, keeps the tables sound, and keeps the promise proved in Promises |
| `Service.MoneyService.DepositBody` | internal/service/service.go:187-229 | the transaction body of Deposit, and the order of its locks |
| `Service.MoneyService.Withdraw` | internal/service/service.go:236-289 | the whole call equals the atomic specification of Withdraw, keeps the tables sound, and keeps the promise proved in Promises |
| `Service.MoneyService.WithdrawBody` | internal/service/service.go:244-286 | the transaction body of Withdraw, and the order of its locks |
| `Service.MoneyService.Reverse` | internal/service/service.go:293-337 | the whole call equals the atomic specification of Reverse, replays that mark the original included, keeps the tables sound, and keeps the promise proved in Promises |
| `Service.MoneyService.ReverseBody` | internal/service/service.go:297-333 | the transaction body of Reverse; the row of the original is locked first |
| `Service.PerformedAsPromised` | internal/service/service.go:128-337 | a call performed as the atomic specification says, a commit of unknown outcome included, leaves sound tables and keeps its promise |
| `Service.MoneyService.AccountBalance` | internal/service/service.go:465-493 | currency and balance of the committed tables, "not found" exactly for an unknown account, and a failure for a sum that is no 64-bit integer |
| `Service.MoneyService.AccountTransactionsHistory` | internal/service/service.go:495-555 | the page of the specification: clamped limit, rows below the cursor, counterparty, next cursor; "not found" exactly for an unknown account |
| `Service.MoneyService.CursorAfter` | internal/service/service.go:526-533 | the next cursor is the last entry of a full page, and 0 otherwise |
| `Service.MoneyService.HistoryRows` | internal/service/service.go:505-524 | the joined rows of the page, read in one transaction that changes nothing |
| `Service.MoneyService.StatementEntries` | internal/service/service.go:535-552 | one entry for each joined row, in its order, field by field, with the counterparty on the other side of the sign |
| `Pages.PageShowsTheNewest` | internal/service/service.go:498-554 | in every reachable state a page has exactly min(size, rows left) entries, where size is 10 for a limit below 1 and at most 999; they are the newest of the account below the cursor, in descending order, each told field by field; the next cursor is the last of a full page |
| `Pages.FirstAreShown` | internal/service/service.go:526-552 | the first rows of a descending list, described one by one, are the newest |
| `History.PagesCoverTheHistory` | internal/service/service.go:498-552 | following the cursors from 0 with any limits, while other calls commit in between, ends and yields exactly the entries present at the first page, each once, newest first |
| `History.FollowFrom` | internal/service/service.go:526-533 | from any cursor on, the pages yield exactly the rows below it |
| `History.SortDescending` | internal/storage/querier.go:216-224 | descending order of an account's ascending ids is commit order reversed |
| `History.CounterpartyIsOtherEndpoint` | internal/service/service.go:537-541 | the counterparty derived from the sign is the other endpoint of the transaction |
| `History.CounterpartyIsInEvent` | internal/service/service.go:430-450 | and it is the one named by the event of the entry |
| `Messages.HeadersOf` | internal/publisher/publisher.go:32-39 | each header of the map once, in some order |
| `Messages.NewRecords` | internal/publisher/publisher.go:28-48 | one record for each message, with its key, headers and payload |
| `Messages.LastEventIdIsFound` | internal/notification/consumer.go:67-72 | the header scan finds the last event_id, whatever other headers there are |
| `Messages.RecordTellsOfRow` | internal/relay/relay.go:145-153 | the record of a row has its partition key, the account, as its key, and the consumer reads the event id from it, whatever the order of the headers |
| `Messages.KeysAreAccounts` | internal/events/events.go:24-28 | the rows under one message key are exactly those of one account |
| `RelayLoop.Topic.Publish` | internal/publisher/publisher.go:20-26 | one record for each message; a failed publish leaves, per message key, a prefix of them in the topic, a successful one all of them |
| `RelayLoop.Topic.ProduceSync` | internal/publisher/publisher.go:21-23 | the same for records |
| `RelayLoop.WrittenIsDelivered` | internal/relay/relay.go:140-158 | so per account a prefix of the rows arrives, each under its account and with its id, and on success all of them |
| `RelayLoop.DisassembleEvents` | internal/relay/relay.go:140-158 | in the order of the batch, a message for each row with its account as key, its event id in the header event_id and itself as payload, and its id |
| `RelayLoop.RelayCopy.PublishBatch` | internal/relay/relay.go:77-138 | rows are marked only after the whole batch was accepted, and exactly those of the batch; every record written has the account of its row as key and the id of its row in a header; what happens on each failure; the lock is released |
| `RelayLoop.RelayCopy.Round` | internal/relay/relay.go:59-67 | a full batch takes exactly its size off the backlog; a smaller one means that the backlog is drained |
| `RelayLoop.RelayCopy.Run` | internal/relay/relay.go:53-75 | without failures a backlog of U rows is drained in U / B + 1 batches before the first sleep; with B = 0 the loop never sleeps and marks nothing; nothing is ever lost |
| `RelayLoop.BatchShrinksBacklog` | internal/storage/querier.go:302-308 | marking a batch removes exactly its rows from the backlog |
| `Notifications.AtLeastOnce` | internal/notification/consumer.go:44-62 | below a committed offset every record has no event id, has a malformed payload, or had its notification accepted before, in every interleaving of workers, restarts and failures |
| `Notifications.AcceptedInOrder` | internal/notification/consumer.go:44-50 | when a notification is accepted, its event stands in some partition behind records that are all settled by then, across workers, restarts and failures |
| `Notifications.NextKeepsDelivery` | internal/notification/processor.go:67-135 | a key holds "done" only for a concluded event, and no worker passes a record that is not concluded |
| `Progress.NoRecordIsStuck` | internal/notification/processor.go:67-135 | in every reachable state a worker at a record gets past it by its own answered statements within leaseTTL, whoever holds a lease, without the help of any other |
| `Progress.EveryPartitionCanBeConsumed` | internal/notification/consumer.go:33-64 | after any crashes and lost replies, one new worker alone can bring the committed offset to the end of the partition |
| `Leases.ExpiryNeverMovesEarlier` | internal/notification/dedup.go:51-80 | no step moves the expiry of a key to an earlier time |
| `Leases.LeaseSeparation` | internal/notification/dedup.go:23-29 | two claims of an event are at least leaseTTL apart, a claim after a Done at least doneTTL |
| `Leases.ClaimIsExact` | internal/notification/dedup.go:54-61 | an answered claim succeeds if and only if no earlier claim is within its lease and no earlier Done within doneTTL |
| `Leases.SecondClaimIsLate` | internal/notification/dedup.go:51-80 | after a claim an event is claimed again only if the lease has run out, and if the owner was done in time, only by a redelivery doneTTL or more after some Done |
| `Leases.AtMostOnce` | internal/notification/processor.go:118-133 | if each owner whose notification was accepted marks the event done within leaseTTL and redeliveries come within doneTTL, no second notification is accepted, however often the event is claimed again after crashes, failed publishes and lost replies |
| `Resending.SentAgainExactly` | internal/notification/processor.go:118-133 | after any run, a further notification of a well-formed event can be accepted by a given time if and only if some worker owns the event unpublished, or its key will have expired by then |
| `Resending.StaysBlocked` | internal/notification/dedup.go:51-80 | until its key expires, an event that no worker owns cannot be published, whatever is delivered, claimed, restarted or lost |
| `Leases.DeadOwnerIsReplaced` | internal/notification/dedup.go:23-25 | a recovery run that meets the conditions of AtMostOnce: the first owner dies, the second publishes |
| `Leases.SlowOwnerPublishesTwice` | internal/notification/processor.go:118-133 | an owner that is too late can publish a second time without any failed command |
| `Processor.Backend.SetNX` | internal/notification/dedup.go:54-61 | takes an absent or expired key for one lease, and leaves a present one alone; a failed command may have done so |
| `Processor.Backend.Get` | internal/notification/dedup.go:63-71 | the state of a key that has not expired |
| `Processor.Backend.SetDone` | internal/notification/dedup.go:78-80 | overwrites the key with "done" for doneTTL |
| `Processor.Backend.Publish` | internal/notification/processor.go:119-122 | one more accepted notification; a failed attempt may have been accepted all the same |
| `Processor.Backend.Wait` | internal/notification/processor.go:87-91 | a retry interval passes, or the context ends |
| `Processor.RedisDeduper.Claim` | internal/notification/dedup.go:51-76 | the three results and the error of the two commands, although other copies act between them; "done" is only reported for a key that holds it, and an undisturbed key decides the result |
| `Processor.RedisDeduper.Done` | internal/notification/dedup.go:78-80 | the key of the event is set to "done", or the error may have either effect |
| `Processor.EventProcessor.Handle` | internal/notification/processor.go:58-136 | success means that nothing more is owed; failure has a cause; an undisturbed event is published at most once more, only if its key was free; and unless its key says "done" it is acquired, after any lease found on it, within leaseTTL / retryInterval + 1 claims, and then published if it is well-formed and publishing works |
| `Processor.EventProcessor.ClaimLoop` | internal/notification/processor.go:67-95 | it ends with a fresh lease, with a key that says "done", or with an error; an undisturbed lease is waited out in the stated number of claims and then acquired |
| `Processor.EventProcessor.ClaimOnce` | internal/notification/processor.go:68-91 | one round: acquired, done, failed, or busy and waited for, with the time that is left |
| `Processor.EventProcessor.Perform` | internal/notification/processor.go:97-135 | publish, then mark done; a malformed event is only marked; a failed mark after a publish is no error |
| `Processor.ReacquiredInTime` | internal/notification/dedup.go:23-25 | a lease is never waited for longer than leaseTTL / retryInterval intervals |
| `Consumer.OffsetsCountOn` | internal/notification/consumer.go:52-54 | committing the records of a batch moves each partition on by their number |
| `Consumer.BatchFinishes` | internal/notification/consumer.go:44-54 | handling a batch finishes everything below the offsets after it |
| `Consumer.CommitFinishes` | internal/notification/consumer.go:52-54 | a commit after failed commits still covers only finished records |
| `Consumer.Client.PollFetches` | internal/notification/consumer.go:35 | the next records of some partitions, in the order of each, of a topic that others may have added to |
| `Consumer.Client.NextRecords` | internal/notification/consumer.go:35 | the same without new arrivals |
| `Consumer.Client.Arrivals` | internal/notification/consumer.go:35 | others append records to the topic |
| `Consumer.Client.CommitRecords` | internal/notification/consumer.go:52-54 | per partition, one past its last record; after a failure it may be either |
| `Consumer.GroupConsumer.Handle` | internal/notification/consumer.go:66-93 | a record is retried until it is finished; only a cancellation gives it up, after as much time as the waits took; an undisturbed record is finished with at most 30 of them |
| `Consumer.GroupConsumer.HandleRecords` | internal/notification/consumer.go:44-50 | the records up to the first error are finished, and an error can only be a cancellation; undisturbed records cost at most 30 waits each |
| `Consumer.GroupConsumer.Fetch` | internal/notification/consumer.go:34-42 | what is below the offsets stays finished while the topic grows, and the batch goes on from there |
| `Consumer.GroupConsumer.HandleBatch` | internal/notification/consumer.go:44-58 | the finished records are a prefix, all of the batch unless cancelled, and exactly that prefix is committed |
| `Consumer.GroupConsumer.Round` | internal/notification/consumer.go:34-62 | the records of one poll are all finished and committed, unless the context ends |
| `Consumer.GroupConsumer.Run` | internal/notification/consumer.go:33-64 | until the cancellation, and after it, every record below a committed offset is finished in every partition; the offsets are those of the handled records, which are all records fetched but for some of the last poll; and the consumer polls on, except for waits, of which undisturbed records cost at most 30 each |
| `Notified.ConsumedIsSent` | internal/notification/consumer.go:44-62 | a consumed well-formed event has had its notification accepted |
| `Notified.EntryReachesTopic` | internal/relay/relay.go:77-138 | every ledger entry has its event, and once that row is published the topic holds a record under its account with its id |
| `Notified.EveryEntryIsNotified` | internal/service/service.go:421-460 | every ledger entry has its event; once that row is published the topic holds a record under its account with its id, and once this is consumed and well-formed its notification has been accepted |
| `Notified.NotificationsFollowCommitOrder` | internal/relay/relay.go:83-120 | in every pair of runs, with the records spread over partitions by their message keys and read by their event_id headers, the notifications of an account are first accepted in the order in which the ledger committed its entries, malformed ones apart |
| `Notified.EarlierRecord` | internal/relay/relay.go:140-158 | in a partition the record of a row stands behind the records of all earlier rows of its account |
| `Hub.Client.Disconnect` | internal/notification/hub.go:109-114 | only the first reason counts |
| `Hub.Client.Receive` | internal/notification/ws.go:69-78 | the writer takes the oldest waiting message |
| `Hub.Registry.NoGaps` | internal/notification/hub.go:63-84 | an open client has been handed exactly what was sent to its account since it registered, in order, and at most 16 messages wait |
| `Hub.Registry.Register` | internal/notification/hub.go:30-47 | one new open client with an empty queue |
| `Hub.Registry.Unregister` | internal/notification/hub.go:49-61 | the client leaves, an account without clients disappears, and the client is disconnected unless it already was; a wrong account only disconnects it |
| `Hub.Registry.Remove` | internal/notification/hub.go:53-57 | the client is taken out of its set, and an emptied set out of the map |
| `Hub.Registry.BeginSend` | internal/notification/hub.go:63-72 | the copied slice holds each client of the account once |
| `Hub.Registry.Offer` | internal/notification/hub.go:74-82 | queue, skip a disconnected client, or report an overflow, which happens exactly when an open client has 16 messages waiting |
| `Hub.Registry.Push` | internal/notification/hub.go:76 | the message goes to the end of the queue |
| `Hub.Registry.Drop` | internal/notification/hub.go:80-82 | a slow client is unregistered for policy violation |
| `Hub.Registry.Serve` | internal/notification/hub.go:74-83 | one client of a send is queued or disconnected |
| `Hub.Registry.ServeClient` | internal/notification/hub.go:74-83 | queued, dropped for overflow, or left alone when disconnected already |
| `Hub.Registry.Send` | internal/notification/hub.go:63-84 | every client of the account takes the message or is disconnected, no other client changes, and exactly the slow ones leave |
| `Hub.Registry.SendAmidOthers` | internal/notification/hub.go:63-84 | with clients registering, unregistering, draining and being told to go away between the atomic parts of a Send, the promise to open clients holds again at its end, and first reasons stay final |
| `Hub.Registry.ServeAmidOthers` | internal/notification/hub.go:74-83 | the same for one client, with other operations also between overflow and unregistering |
| `Hub.Registry.Others` | internal/notification/hub.go:30-114 | any number of other hub operations, on registered clients and on any others given, keep the invariant, the send in progress and the first reasons |
| `Hub.Registry.ServeAll` | internal/notification/hub.go:74-83 | the loop over the copied clients |
| `Hub.Registry.CloseAll` | internal/notification/hub.go:86-95 | every registered open client is told to go away and stays registered |
| `Hub.Registry.CloseClients` | internal/notification/hub.go:91-93 | every client of one account, once |
| `Hub.Registry.Connections` | internal/notification/hub.go:97-107 | the number of clients registered and not yet unregistered |
| `Hub.Registry.Drain` | internal/notification/ws.go:66-78 | a client's writer does not disturb the hub |

## Left out

- HTTP and JSON handling, request validation, status codes, WebSocket writing and pings, Redis
  pub/sub between the copies, configuration, metrics, logging and signals: no state of their own.
- Timestamps: createdAt and occurredAt are not modelled, nor is the age of the oldest outbox row.
- Transaction statuses pending and failed: the schema allows them, the code never writes them.
- UUIDs of events: an event is identified by its unique outbox id, and its payload, and so the account
  that its notification is addressed to, is a function of it; whether a payload decodes is a
  parameter. Re-encoding the notification never fails. Header values are numbered.
- Accounts are fixed during a run, as no modelled code creates or changes them.
- Contexts and timeouts: a timeout is a failure that may occur at any statement; cancellation is a
  budget of waits, which also bounds the otherwise endless loops of consumer and relay.
- Client libraries: automatic retries inside go-redis and franz-go are not modelled; what is taken
  from Kafka is that of each account the records of one publish arrive in order, now, later or never.
- RelayLoop.Topic.Publish: in the class nothing arrives after a failed publish was reported; in the
  state machine it may, also while another copy is at work.
- Consumer rebalancing: a worker starts from the committed offset; in the state machine it has one
  partition, and several workers may read the same one.
- Service.MoneyService.Transfer: the class runs one transaction at a time, and so do its siblings
  Deposit, Withdraw and Reverse; their interleaving is the state machine's. Foreign-key locks of
  the inserts are not modelled, as they fall on rows that the call has locked.
- Balances.NoOverdraft: the condition is sufficient; it is exact per call, where reversals took at most
  2^63 from the account (Balances.WrapDecidesOverdraft).
- RelayLoop.RelayCopy.Run: its failure-free bound assumes that no rows are added meanwhile, and
  batch sizes below 0, which the database rejects, are not modelled.
- History.PagesCoverTheHistory: assumes entry ids between 1 and the largest 64-bit integer,
  exclusive, because the first page is read with that integer as its bound.
- Leases.AtMostOnce: its conditions on a whole history are sufficient; exactly what is needed at each
  moment is said by Resending.SentAgainExactly.
- Notified.NotificationsFollowCommitOrder: the spread of accounts over partitions is fixed, and the
  order is that of first acceptances by the publisher; Redis pub/sub behind it is not modelled.
- Processor.EventProcessor.Handle: the bounds on notifications and claims are stated for events
  which no other copy handles at the time; without that they do not hold.
- Hub.Registry.Send: sends are issued one at a time, as the subscriber loop, the only caller, does
  (internal/notification/pubsub.go:82).
- Hub.Registry.BeginSend: requires that no other send is in progress, for the same reason.
