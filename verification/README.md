# Verified model of the wagering wallet engine

The service keeps one wallet per player and currency and moves it by BET, WIN, LOSS, REFUND and
ROLLBACK operations that arrive over HTTP and SQS, possibly more than once and out of order. A
PostgreSQL store holds wallets, wager transactions, an append-only ledger, an inbox and an outbox;
workers wake transactions that wait for their reference and publish the outbox.

The project models that engine as one state machine and proves what every run keeps:

- `Monetary`, `Decimal`, `Payload`, `Backoff`: 64-bit money with its overflow guards, the decimal
  codec, the canonical payloads, the backoff loops.
- `Model`, `Records`, `Entities`: the rows, the checks of their constructors, and the wallet and
  transaction objects whose methods change them.
- `Settlement`, `Engine`, `Opening`, `Inbox`, `Outbox`, `ReferenceWorker`, `Pagination`,
  `Reconciliation`: the use cases. What one settlement writes is a function (`Settle`, `Process`,
  `Resume`); the imperative methods are proved to write exactly that.
- `Store`, `Accounting`, `Invariant`, `Soundness`, `Guards`: the committed tables, which commits are
  legitimate, the invariant they keep, and the database's own CHECKs, indexes and triggers.
- `Machine`, `Safety`, `Runs`: transactions in flight with separate READ COMMITTED reads, wallet and
  row locks, commits, crashes (`Abort`), redeliveries, stale workers and any clock; one step
  invariant; runs.
- `Theorems`, `Identities`, `Redelivery`, `Leases`, `Deadlines`, `Progress`, `Delivery`,
  `Convergence`, `Totality`: the promises of the service, over every run or every input.

A commit is one step. Every lookup is a step of its own and may see an older table than the next
one; what a flight has read is shown to be still true when it commits, because of the wallet lock
and because rows only grow. Times are nanoseconds with 0 for the zero time, and clock readings are
arbitrary unless a theorem says otherwise.

Three places where the code does less, or more, than its documentation says; the model follows the
code:

- The worker delay is documented as at most five minutes (ARCHITECTURE.md:57). The ninth attempt
  draws up to 64 seconds of jitter on 256, so it can reach 320 seconds; `Backoff.WorkerBackoff`
  states exactly when it passes five minutes.
- A correlation id with surrounding white space, a no-break space in a header say, passes input
  validation and then makes the first event fail; `Totality.SubmissionIsTotal` gives the exact condition and
  `Totality.PaddedCorrelationIsRefusedLate` the failing family.
- A message cannot be completed when the clock ran backwards between its claim and its completion
  (the inbox CHECK); `Inbox.Consume` states the exact condition for a first delivery. All other
  time checks hold for any readings.

## Model

| member | source | states |
|---|---|---|
| Theorems.AccountingIdentity | internal/application/wagering/process.go:89-125 | In every reachable state a wallet's balance equals its opening amount plus wins in force minus bets in force, and is not negative |
| Accounting.NetAfter | internal/application/wagering/process.go:177-214 | Writing one more transaction moves the sum of what is in force by exactly that transaction's effect on its wallet, including rollbacks of refunds that put a bet back in force |
| Accounting.RootFlips | internal/application/wagering/process.go:116-125 | A processed reversal changes the standing of exactly the bet or win at its root, by the reversal's own movement |
| Theorems.LedgerChain | internal/domain/wallet/wallet.go:81-136 | In every reachable state a wallet's entries have consecutive versions ending at the wallet's, from 1 for an opening and 2 otherwise, continuous balances from zero, times in order, and a signed sum equal to the balance |
| Theorems.AlwaysReconciled | internal/application/reconciliation/service.go:51-92 | Reconciliation of any wallet in any reachable state is consistent, with difference zero and no overflow; an unknown wallet is not found |
| Reconciliation.Reconcile | internal/application/reconciliation/service.go:51-92 | On any tables: the report confronts the stored balance with the signed sum and the count of the wallet's entries; consistent iff they agree; out of range iff the sum or the difference leaves 64 bits; the other errors exactly for an invalid id, an unknown wallet or a bad row |
| Reconciliation.SignedSumAdds | internal/adapters/postgres/reconciliation_store.go:22-30 | The signed sum is additive over any entries |
| Reconciliation.SignedSumOfOne | internal/adapters/postgres/reconciliation_store.go:24-25 | A credit counts for and a debit against |
| Reconciliation.AlwaysConsistent | internal/adapters/postgres/reconciliation_store.go:19-41 | On tables with continuous chains the report shows the stored balance, difference zero and all entries |
| Theorems.ExactlyOnce | migrations/000001_initial.up.sql:90-93 | In every reachable state each (provider, external id) and each (provider, key) owns at most one transaction and at most one ledger entry |
| Theorems.ReplayChangesNothing | internal/application/wagering/service.go:160-182 | A replay writes no row, entry or event, and answers with the transaction that owns the key, the external id and the hash, which is stored in every later state |
| Theorems.MessageLandsOnce | internal/adapters/postgres/inbox_repository.go:19-71 | Two landings of a run never complete the same message, and an inbox row never changes once written |
| Redelivery.ConsumerIsAnswered | internal/application/ingestion/service.go:55-83 | A consumer that succeeded, by a first delivery or a redelivery, was answered with the transaction that owns the key, external id and content of its message, stored in every later state and unchanged once settled |
| Redelivery.RedeliveryGetsTheSame | internal/application/ingestion/service.go:60-73 | Every success with a message in a run, however often it is redelivered, is answered with the same transaction and had the same hash |
| Redelivery.LandingIsAnswered | internal/application/ingestion/service.go:74-82 | A first delivery is answered with the transaction that it stored or replayed |
| Redelivery.RedeliveryCanBeAnswered | internal/application/ingestion/service.go:60-67 | The transaction that a completed message names is always found |
| Redelivery.RedeliveryWritesNothing | internal/application/ingestion/service.go:60-73 | Recognising and answering a redelivery changes no table |
| Redelivery.AcknowledgedAfterCommit | internal/adapters/sqs/consumer.go:235-266 | A message deleted from the queue is completed in the inbox with a stored transaction, because only a consumer that succeeded deletes |
| Redelivery.ContentsRun | internal/application/ingestion/message.go:60-95 | Every inbox row carries the hash of an envelope whose input its transaction owns |
| Theorems.SettledIsFinal | migrations/000001_initial.up.sql:235-253 | Settled transactions never change, identities are permanent, ledger and event log only grow |
| Theorems.EventsMatchLedger | internal/application/wagering/process.go:278-332 | Balance events and ledger entries pair off in order with equal fields; each is caused by the single processed event of its transaction; losses and rejections have none |
| Theorems.OutcomesTold | internal/application/wagering/process.go:216-303 | Exactly one outcome event for a settled transaction, none while it waits, one pending event exactly when it ever waited |
| Theorems.GuardsNeverFireInRuns | migrations/000002_financial_semantics.up.sql:10-93 | Every commit of every run passes all CHECKs, foreign keys, deferred triggers and unique indexes; of the indexes only the two of a new submission's identity and an opening's player and currency are consulted by the commit itself |
| Theorems.UpdatesPassGuards | migrations/000003_pending_reference_deadline.up.sql:9-12 | Claims and reschedules touch only unsettled rows and keep every CHECK, the deadline included |
| Guards.GuardsNeverFire | migrations/000002_financial_semantics.up.sql:10-93 | A legitimate wager commit on tables that satisfy the invariant passes every CHECK, foreign key, trigger and index, the identity indexes included |
| Guards.ReferenceRulesAgree | internal/application/wagering/process.go:177-214 | A settled reference is accepted exactly when the ledger trigger would accept it |
| Guards.ResolutionIsExact | internal/application/wagering/process.go:177-214 | Column by column: when there is no reference, when it is open, and each refusal code iff its rule is the first broken one in the order processed, columns, kinds, amount |
| Guards.WalletTriggerAccepts | migrations/000004_wallet_ledger_continuity.up.sql:30-67 | The wallet written by a commit has a ledger entry that continues its prior balance at its new version |
| Guards.GuardsNeverFireOnOpening | migrations/000001_initial.up.sql:94-95 | Opening a wallet for a player without one in that currency passes every guard, its single-opening index included |
| Theorems.ReversedAtMostOnce | migrations/000001_initial.up.sql:96-98 | Two processed direct reversals never name the same reference, by the protocol alone |
| Safety.ReversalSeenStays | internal/application/wagering/process.go:93-101 | Under the wallet's lock the answer to the reversal check cannot be changed by commits on other wallets |
| Theorems.NoMovementIsLost | internal/adapters/postgres/wallet_repository.go:70-86 | The compare-and-set on the wallet version always finds the version it expects |
| Theorems.PagesOverRun | internal/application/wallet/service.go:106-141 | Pages requested at any later moments of a run list exactly the entries present at the first request, newest first, none repeated or skipped |
| Pagination.PagesAreComplete | internal/adapters/postgres/ledger_repository.go:38-72 | Following cursors over a growing ledger returns the first query's entries in strictly descending order and ends exactly when the limits add up to their number |
| Pagination.NextCursorIsAccepted | internal/application/wallet/service.go:116-121 | A cursor that a page hands out passes the checks of the next request, given drawn entry ids |
| Theorems.CursorsAreAccepted | internal/application/wallet/service.go:116-121 | In every reachable state the cursor that a page hands out is accepted by the next request |
| Pagination.NewestFirstSorts | internal/adapters/postgres/ledger_repository.go:53-54 | The ordering clause yields the same rows, newest first by (version, id) |
| Pagination.ListByWallet | internal/adapters/postgres/ledger_repository.go:38-72 | Returns the newest matching rows up to the limit |
| Pagination.ListLedger | internal/application/wallet/service.go:106-141 | Succeeds exactly on a valid wallet id, a limit from 1 to 100 and a matching cursor; a next cursor is given exactly when more entries match |
| Safety.StepKeeps | internal/application/wagering/service.go:138-194 | Every step of every flight, worker, publisher and clock keeps the invariant of tables, locks, reads, inbox, outbox and tokens |
| Safety.Reachable | internal/application/wagering/service.go:118-133 | Every state of every run satisfies that invariant |
| Safety.ReadsStay | internal/application/wagering/process.go:177-214 | What a flight has read of its reference is still true after any other flight's commit |
| Runs.RunGrows | migrations/000001_initial.up.sql:159-170 | Along a run rows stay, identities are permanent, settled rows are final, ledger and events are append-only, wallet versions never fall |
| Runs.WrittenIsSound | internal/application/wagering/process.go:75-168 | What every commit of a run writes is a legitimate settlement or a sound opening |
| Invariant.LegitKeepsInv | internal/application/wagering/process.go:75-168 | A legitimate commit keeps chains, explanations, events, identities, schedules and the accounting identity |
| Invariant.OpenKeepsInv | internal/application/wallet/service.go:68-97 | Opening a wallet keeps the same invariant |
| Soundness.ProcessIsLegit | internal/application/wagering/process.go:15-31 | What a first submission computes from current reads is a legitimate commit |
| Soundness.ResumeIsLegit | internal/application/wagering/process.go:36-73 | What resuming computes from current reads is a legitimate commit of the same transaction |
| Identities.OneRetrySuffices | internal/application/wagering/service.go:118-133 | After a unique index refused an insert, every later identity check finds the winner, whichever snapshots its lookups see |
| Identities.SplitReadsAreSound | internal/application/wagering/service.go:196-233 | With the two lookups at different states, a replay is a replay of the same transaction at the later state, a conflict is a conflict, and a false fresh verdict clashes with a stored key |
| Identities.VerdictsAreExact | internal/application/wagering/service.go:196-233 | Replay iff the key is stored with the same business content, idempotency conflict iff with other content, external conflict iff only the external id is known; the hash-equal external conflict is unreachable |
| Identities.HashedRun | internal/application/wagering/service.go:142-157 | Every stored submission carries the hash of its own canonical payload |
| Leases.FencedRow | internal/adapters/postgres/reference_store.go:26-115 | A stored row changes only by a claim while due and unheld, or by the holder of its current token; the exact new columns in each case |
| Leases.HolderIsNotOvertaken | internal/adapters/postgres/reference_store.go:73-97 | A worker that holds the row lock keeps row and token even past the end of its lease; nobody else holds or claims it |
| Leases.StaleForever | internal/adapters/postgres/reference_store.go:99-115 | A replaced token never becomes current again, so a stale worker never holds the row |
| Leases.CompletesOnce | internal/adapters/postgres/wager_repository.go:84-107 | Two completions in a run are of different rows |
| Leases.DueBeforeDeadline | migrations/000003_pending_reference_deadline.up.sql:9-12 | While a transaction waits its next attempt is set and never past its deadline |
| Deadlines.AtMost296Reschedules | internal/application/reference/service.go:97-135 | With a database clock that does not run backwards no transaction is rescheduled more than 296 times |
| Deadlines.AttemptsCount | internal/adapters/postgres/reference_store.go:103-106 | The attempts column counts the reschedules of the run |
| Deadlines.WakeIsDecided | internal/application/wagering/process.go:62-72 | A worker reschedules exactly when the reference is open and the deadline has not passed; otherwise it completes, unless the wallet version is exhausted; an open reference past the deadline is rejected as not found |
| Deadlines.ClaimableAfterDeadline | internal/adapters/postgres/reference_store.go:35-40 | From its deadline on a waiting row can be claimed exactly when no lease runs and nobody holds it |
| Progress.OverdueCanEnd | internal/application/reference/service.go:72-121 | From any state that satisfies the invariant, one worker's steps end an overdue transaction, whatever its reference does, chains and cycles included |
| ReferenceWorker.ReferenceStore.ClaimDue | internal/adapters/postgres/reference_store.go:26-60 | Refuses a lease that is not positive; claims the first row by next attempt and id that waits, is due and has no running lease, with the exact new columns; nothing iff no such row |
| ReferenceWorker.ClaimStep | internal/adapters/postgres/reference_store.go:26-60 | A claim is a claim step of the machine, and an empty claim means that none is enabled |
| ReferenceWorker.DueIsClaimable | internal/adapters/postgres/reference_store.go:35-41 | A row is due and unskipped iff the machine lets a worker claim it |
| ReferenceWorker.LockIsEnabled | internal/adapters/postgres/reference_store.go:73-84 | The row can be locked iff the machine lets the flight lock it |
| ReferenceWorker.ReferenceStore.LockPending | internal/adapters/postgres/reference_store.go:73-97 | Nothing for a settled row, a replaced token or a lapsed lease |
| ReferenceWorker.ReferenceStore.Reschedule | internal/adapters/postgres/reference_store.go:99-115 | Succeeds exactly under the current token of a waiting row, counts the attempt and drops the lease |
| ReferenceWorker.WakeClaimed | internal/application/reference/service.go:85-121 | Stale iff the claim no longer fences a leased row; rescheduled, by the backoff or to the deadline, iff the reference is open before the deadline; completed iff resuming settles, with exactly that settlement; an error iff resuming fails or the claim names another wallet |
| Convergence.ResumeRefinesSubmit | internal/application/wagering/process.go:36-73 | With a settled reference, resuming writes the same row, wallet, entry and events as submitting at that moment |
| Convergence.OutOfOrderConverges | internal/application/wagering/process.go:15-73 | Arriving before the reference and being resumed leaves, up to times, the same wallets, transactions and ledger as arriving after it: the early arrival waits, the reference's own submission writes the very same changes on both stores, and the lookups agree; cycles are shown not to settle |
| Convergence.ReferenceSettlesAlike | internal/application/wagering/process.go:177-214 | A submission finds and writes the same whether or not a transaction that it does not refer to is parked |
| Totality.SubmissionIsTotal | internal/application/wagering/process.go:75-168 | A fresh submission fails iff its correlation id cannot label an event or its movement exhausts the version; clock readings play no part, and written times never precede what they build on |
| Totality.AcceptanceIsExact | internal/application/wagering/service.go:235-250 | A submission is accepted iff its ids are trimmed and present, wallet and player are UUIDs, a correlation id is given, the currency is known, the amount is zero for a loss and positive otherwise, and the reference is what its kind asks for |
| Totality.FittingIsExact | internal/application/wagering/service.go:173-175 | A stored wallet fits iff player and currency are the submitted ones |
| Totality.LossIsProcessed | internal/application/wagering/process.go:104-113 | An accepted loss is processed with the wallet's balance and moves nothing |
| Totality.PlainOutcome | internal/application/wagering/process.go:115-145 | A bet is taken iff the wallet holds it, a win is paid iff the balance stays in range; the rejection codes otherwise |
| Totality.ReferencedOutcome | internal/application/wagering/process.go:75-145 | With a settled reference: a broken rule or an earlier reversal is refused with its code; which kinds pay, which take back, and the codes when they cannot |
| Totality.OpenReferenceWaits | internal/application/wagering/process.go:216-244 | A missing or waiting reference makes the submission wait, due after a second and for a day at most |
| Totality.ProcessingTimeIsLatest | internal/application/wagering/service.go:183-189 | The processing time is the latest of reading, reception and the wallet's last movement |
| Totality.SubmissionIsLabelled | internal/application/wagering/process.go:278-332 | Rows and events of a submission are dated by its processing time, carry the caller's correlation id and use the drawn ids in their places |
| Totality.ResumptionIsLabelled | internal/application/wagering/process.go:36-73 | Rows and events of a resumed settlement carry the transaction's own id as correlation id |
| Totality.ReadingsOnlyDate | internal/application/wagering/service.go:183-189 | Two clock readings give the same rows, schedule and events up to their times |
| Totality.PaddedCorrelationIsRefusedLate | internal/application/wagering/service.go:235-250 | Padding the correlation id of any acceptable input with a no-break space gives an acceptable input whose submission fails on every wallet |
| Settlement.Settle | internal/application/wagering/process.go:75-168 | A settlement fails iff the correlation id is unusable or a movement needs a version past the maximum; it settles the same transaction, with an entry exactly when the wallet moves |
| Engine.Finish | internal/application/wagering/process.go:75-168 | Writes exactly the settlement and fails exactly when it does: no ledger, event or transition check fires |
| Engine.Move | internal/application/wagering/process.go:126-168 | Insufficient funds and overflow become rejections with their codes; otherwise wallet, row, entry and events agree |
| Engine.PersistRejected | internal/application/wagering/process.go:246-276 | Writes the rejected row with the unchanged balance and its event, iff the correlation id is usable |
| Engine.PersistPending | internal/application/wagering/process.go:216-244 | Writes the waiting row with its schedule and pending event |
| Engine.ProcessNew | internal/application/wagering/process.go:15-31 | Writes exactly what `Process` says for the reference that was found |
| Engine.ResumePending | internal/application/wagering/process.go:36-73 | For any clock reading writes exactly what `Resume` says, and nothing while it should wait on |
| Engine.SubmitInSession | internal/application/wagering/service.go:138-194 | The outcome for every answer of its lookups: conflicts, replays that write nothing, missing or mismatched wallets, and fresh submissions |
| Entities.Wallet.CreditBy | internal/domain/wallet/wallet.go:81-90 | Succeeds iff amount, time, currency, version and range allow; adds the amount and one version; an error changes nothing |
| Entities.Wallet.DebitBy | internal/domain/wallet/wallet.go:92-108 | Insufficient funds iff the valid amount exceeds the balance; subtracts the amount and adds one version; an error changes nothing |
| Entities.Wallet.ValidateMovement | internal/domain/wallet/wallet.go:110-128 | Accepts iff amount, time, currency and version allow a movement |
| Entities.Transaction.MarkPendingReference | internal/domain/wagering/transaction.go:263-273 | From pending with a reference only; keeps the row valid |
| Entities.Transaction.ResolveReference | internal/domain/wagering/transaction.go:275-291 | Records the reference of an unsettled transaction once; keeps the row valid |
| Entities.Transaction.MarkProcessed | internal/domain/wagering/transaction.go:293-305 | Needs a resolved reference where one is named; keeps the row valid |
| Entities.Transaction.Reject | internal/domain/wagering/transaction.go:307-319 | Settles an unsettled transaction with a code and the balance shown |
| Entities.Transaction.Fail | internal/domain/wagering/transaction.go:321-336 | Only with the permanent infrastructure code, and without a balance |
| Records.BuildEntry | internal/domain/ledger/entry.go:61-112 | The checked 64-bit arithmetic accepts exactly the entries whose balance equation holds over the integers |
| Records.BuildEvent | internal/domain/event/wallet.go:20-43 | The exact acceptance condition of each event kind; for a balance event the checked arithmetic is the equation over the integers |
| Opening.Open | internal/application/wallet/service.go:68-97 | Succeeds iff player, currency, amount, time and correlation id allow, and then writes a wallet of exactly the requested balance; for a positive one the opening transaction, the credit from zero and both events carry exactly that amount and the caller's correlation id; for zero nothing else is written |
| Theorems.OpensExactly | internal/application/wallet/service.go:68-97 | Over every run an opening adds a wallet with exactly the requested balance, its opening movement if positive, and changes nothing else |
| Opening.AddOpening | internal/application/wallet/service.go:143-201 | For a positive amount it fails exactly on the correlation id, and otherwise records exactly that amount in transaction, entry and events |
| Opening.OpenedOpens | internal/application/wallet/service.go:143-201 | What opening writes is a sound opening |
| Inbox.InboxStore.ClaimMessage | internal/adapters/postgres/inbox_repository.go:19-51 | Conflict iff stored with another hash; recognises a completed message with its transaction; inserts only a new one |
| Inbox.InboxStore.CompleteMessage | internal/adapters/postgres/inbox_repository.go:53-71 | Succeeds iff the message is claimed, not completed and not completed before its reception, which is refused as such |
| Inbox.Consume | internal/application/ingestion/service.go:47-92 | A redelivery is answered with the transaction that its inbox row names and writes nothing; an unseen message succeeds iff its submission does and the clock did not run backwards, and is completed with the transaction of its submission; the error in every other case |
| Inbox.Handle | internal/adapters/sqs/consumer.go:235-266 | Deletes iff the consumption succeeded and committed, and then the inbox names its transaction; a completed message is always deleted with that answer |
| Inbox.Dispose | internal/adapters/sqs/consumer.go:250-302 | Releases on a timeout, leaves exactly the conflicts, the invalid input and the wallet errors, defers every other error by the visibility backoff |
| Inbox.SubmitMessage | internal/application/ingestion/service.go:74-77 | Succeeds exactly on the answers that let a submission succeed |
| Outbox.OutboxStore.Claim | internal/adapters/postgres/outbox_store.go:30-70 | Leases the first unpublished, due, unlocked event by next attempt, occurrence and id for the whole lease and counts the attempt; nothing iff no such event |
| Outbox.QueuedIsDue | internal/adapters/postgres/outbox_repository.go:20-31 | A new event is queued unclaimed and due at once |
| Outbox.OutboxStore.Confirm | internal/adapters/postgres/outbox_store.go:72-84 | Publishes iff the token is current |
| Outbox.OutboxStore.Retry | internal/adapters/postgres/outbox_store.go:86-102 | Reschedules iff the token is current |
| Outbox.ProcessOne | internal/application/outbox/service.go:77-108 | A sent event is published; one that could not be sent is unleased and due after the backoff of its attempt; idle means nothing was due |
| Outbox.StepKeepsInv | internal/adapters/postgres/outbox_store.go:30-102 | Every worker step keeps: attempts count the claims, published rows were sent, tokens belong to one event |
| Outbox.StaleTokensChangeNothing | internal/adapters/postgres/outbox_store.go:72-102 | Only the current token of an unpublished row changes anything |
| Delivery.EveryEventIsDelivered | internal/adapters/postgres/outbox_store.go:30-70 | In every reachable state each event has its outbox row, its attempts count its claims, and it is claimable whenever unpublished and due |
| Delivery.PublishedAfterSend | internal/application/outbox/service.go:77-108 | An event becomes published only by a confirmation under its current token after a send under that token |
| Delivery.RunOutbox | internal/adapters/postgres/outbox_store.go:72-102 | Publication is final and a replaced token never comes back |
| Payload.CanonicalPayload | internal/application/wagering/canonical.go:11-91 | The builder loops write exactly the canonical text |
| Payload.CanonicalMessage | internal/application/ingestion/message.go:97-177 | The builder loops write exactly the canonical envelope |
| Payload.CanonicalInjective | internal/application/wagering/canonical.go:11-76 | Two payloads are equal iff all business fields agree, presence of the reference included |
| Payload.EnvelopeInjective | internal/application/ingestion/message.go:97-162 | Two envelopes are equal iff their own fields agree |
| Payload.CanonicalLayout | internal/application/wagering/canonical.go:11-76 | The members of the payload, by name and in order |
| Payload.EnvelopeLayout | internal/application/ingestion/message.go:97-162 | The members of the envelope, by name and in order |
| Payload.MessageLayout | internal/application/ingestion/message.go:144-162 | The message's own members close the envelope: id, time and type |
| Payload.PlayerLayout | internal/application/wagering/canonical.go:30-54 | The members that both texts share: amount, currency, player, provider |
| Payload.WalletLayout | internal/application/wagering/canonical.go:55-73 | The optional reference, the round and the wallet close both texts |
| Payload.QuoteReadsBack | internal/application/wagering/canonical.go:78-91 | A JSON reader (section 7 of RFC 8259) gets back every quoted string and the text after it |
| Payload.QuoteCancels | internal/application/wagering/canonical.go:78-91 | JSON strings (section 7 of RFC 8259) are self-delimiting and injective |
| Decimal.ParseMeaning | internal/domain/money/money.go:180-219 | Parsing gives the denoted value, overflow iff a well-formed decimal is out of range, and an error otherwise |
| Decimal.ParsePrint | internal/domain/money/money.go:137-155 | Parsing the printed form returns the same money for every 64-bit value, the minimum included |
| Decimal.PrintIsTheCanonicalForm | internal/domain/money/money.go:137-155 | Printed forms are the unique canonical texts |
| Monetary.Money.Add | internal/domain/money/money.go:91-100 | Succeeds iff currencies agree and the integer sum fits 64 bits, and is then exact |
| Monetary.Money.Subtract | internal/domain/money/money.go:102-111 | Succeeds iff currencies agree and the integer difference fits 64 bits, and is then exact |
| Monetary.Money.Negate | internal/domain/money/money.go:113-121 | Overflows only for the minimum |
| Monetary.Money.Compare | internal/domain/money/money.go:123-135 | Orders by amount iff currencies agree |
| Backoff.WorkerBackoff | internal/application/reference/service.go:123-135 | The loop equals min(2^(n-1), 300) seconds plus jitter of at most a quarter, none at the cap, without overflow; past five minutes exactly at the ninth attempt with more than 44 seconds of jitter |
| Backoff.RetryVisibility | internal/adapters/sqs/consumer.go:284-293 | The loop equals min(5 * 2^(n-1), 300) seconds without overflow |
| Backoff.VisibilityMonotone | internal/adapters/sqs/consumer.go:284-293 | A message received more often is never retried sooner |
| Backoff.DelayTable | internal/application/reference/service.go:123-135 | 1, 2, 4, ... 256 and then 300 seconds |
| Backoff.VisibilityTable | internal/adapters/sqs/consumer.go:284-293 | 5, 10, 20, ... 160 and then 300 seconds |
| Text.UuidIsExact | internal/platform/id/uuid.go:24-36 | With hyphens in their four places only, the valid ids are the canonical lower-case UUIDs |
| Text.ValidIDMeansTrimmed | internal/domain/wagering/transaction.go:389-391 | A valid id is a text that is not empty and that trimming leaves alone |
| Text.TextLessIsLexicographic | internal/adapters/postgres/ledger_repository.go:49-53 | Ids compare at their first difference |
| Pagination.NewerIsTotal | internal/adapters/postgres/ledger_repository.go:49-53 | Entries are ordered by version and then by id, totally |
| Backoff.DelaysWithinTtl | internal/application/wagering/process.go:226 | The 24 hours leave room for 295 delays and not for 296 |

## Left out

- HTTP routes, authentication, OIDC, health, metrics, logging, configuration and wiring: input and output around the engine.
- cmd/sqs-gateway: request signing and policy, unrelated to the money flow.
- SHA-256: the canonical text stands for its hash, that is, the hash is taken to be injective.
- UUID generation: ids and tokens are parameters; tokens, transaction, wallet and event ids are required to be new where the database would refuse them; ledger entry ids have the form of a UUID but are not required to be new.
- PostgreSQL and SQS internals: only row predicates, indexes, locks, commits and send or delete outcomes; deadlock and serialisation retries of `ReadCommittedWithRetry` appear as aborted flights.
- JSON and RFC 3339 decoding of requests; invalid UTF-8; kinds, directions and failure codes outside their enumerations.
- Goroutines, shutdown and the batch arithmetic of the consumer: a crash is an aborted flight, and only committed effects survive it.
- `Transaction.Fail` in runs: no current flow calls it; it is modelled on the object alone.
- Storage rounding of timestamps to microseconds.
- The two clock readings inside one row lock (lease test and `now`) are taken to be the same reading.
- The indexes that the application does run into: the two identity indexes at the insert of a submission and the (player, currency) index at an opening are conditions of those commits in the machine, since two requests may well ask for the same; what happens after a lost identity race is `Identities.OneRetrySuffices`.
- Down migrations, EXPLAIN scripts and deployment files.
- Pagination.ListLedger: the cursor is a value; its base64 and JSON text and its format version are not modelled.
- Reconciliation.Reconcile: the snapshot's currency and sum are values rather than text, and the entry count cannot be negative.
- Outbox.ProcessOne: one pass without interference; interleavings are covered by the step relation.
- Inbox.Consume: the second attempt after an identity race is the caller's; that it never races again is `Identities.OneRetrySuffices`.
- Progress.OverdueCanEnd: shows that the ending steps exist once the lease is over, the wallet is unlocked and its version not exhausted; that a worker is eventually scheduled is not part of the model.
