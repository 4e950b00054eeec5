# Verification of the data-loan collection services

Dafny models and proofs for four parts of the loan platform.

* **Repayment protocol** (`Deduction`, `Ledger*`, `WorkerSteps`, `Protocol*`, `WorkerHandler`,
  `ProducerHandler`, `HandlerRefinement`, `MessageTraces`, `Overlap`, `Debits`, `EntryAccounts`,
  `FeeTheorems`, `FeeLaws`, `LedgerContents`, `PublishedMessages`, `DeliveryOutcomes`).
  `promo-collection` turns a promo event into one message under a per-subscriber in-progress entry;
  `promo-collection-worker` debits the wallet and rewrites Loans, UnpaidLoans, Collections and
  ClosedLoans in one transaction, releases the entry and acks, nacks or leaves the message.
  `Protocol` is the step system: producer, any number of handlers and loan openings interleave over
  all subscribers, and every answer of a store, wallet or topic is open. `WorkerHandler` and
  `ProducerHandler` are the two services' code as methods on classes, proved to be paths of that
  system; `MessageTraces` and `Debits` follow one message through a run; `LedgerContents`,
  `PublishedMessages` and `DeliveryOutcomes` say what is written, sent and answered by fields.
* **Retry pipeline** (`Retry*`). Streamer, batching workers, three bounded channels, collector and
  the closing routine as interleaved steps, with the loops of worker, batch and collector as methods.
* **Row formats, balance check, skip cache** (`Rows`, `BalanceCheck`, `SkipCache*`,
  `SkipDecisions`).
* **Availment report** (`Report`, `ReportTheorems`). The nested chunk and retry loops.

`dafny verify dfyconfig.toml` checks the whole project.

Amounts and data volumes are `real`, KB and hours `int`, time is an `int` clock that never goes back.

## Where the code differs from what one would expect

The code is modelled as it is; each point below has its own theorem.

* The version written by a partial collection subtracts the cumulative collected fee, so after the
  first collection the stored fee is too low (`StoredFeeRightIff`, `SecondCollectionStoresFeeTooLow`).
* A failed UnpaidLoans read is ignored when the loan shows a balance; the message then carries
  version 0 and fee 0. Balances stay right, the version chain breaks (`VersionsConsecutiveIff`,
  `StaleReadBreaksVersions`).
* The peso amount is computed with the rate of the loan document even when the rate came from the
  matrix; such an event can never be published (`NoLoanRateNeverPublishes`).
* Column 16 of a live row includes the fee, of a retried row it does not (`LiveAndRetryRowsAgree`).
* The grace period is checked only in Redis: the producer passes `EducationPeriodTimestamp` where
  the parameter is called the grace period (`DocumentGraceIsIgnored`, `LostKeyBreaksGrace`).
* The wallet is debited in KB of 1000 and checked in KB of 1024 to the MB (`BalanceCheck`);
  where the check is wrong a message is posted without a debit or after two (`DebitedOnceIff`).
* A debit answered with status 200 and an unreadable body is acknowledged and never posted
  (`PostedIsDebitedOnce`).
* The services read amounts into int32 fields. A fraction in the newest version, or in the fee of a
  partially collected loan, keeps the worker's transaction from ever committing although the wallet
  is debited (`PostableIff`, `FractionalDebtIsUnpostable`).
* An in-progress entry that a failed step leaves behind is never removed (`LeftBehindForGood`).
* A live row shows the local minute, a retried one that of UTC (`LiveAndRetryRowsAgree`).
* Nothing but the subscription keeps a message from being posted twice (`SecondPostBreaksLedger`,
  `OverlappingDeliveriesPostTwice`).
* loan-availment caches the education window under a JSON name the producer does not read; the
  direct check makes up for it (`CachedCheckRefinesDirect`).
* The report never returns for REPORT_CHUNKS above 24 or negative unless queries fail
  (`TerminationIff`).

## Assumptions

* One producer loop; its check and its insert of the entry are two steps of that loop.
* An acknowledgement is honoured, and no process stops between the commit and the acknowledgement.
* A message is never delivered again while its handler still runs. The consumer turns lease
  extension off (`promo-collection-worker/internal/pkg/pubsub/consumer.go:115`), so this asks that
  every handler is faster than the acknowledgement deadline.
* In `Debits` only the message itself touches its bucket, and a refusal after which the message is
  redelivered had not debited; both are hypotheses of its theorems.
* A publish that returns an error delivered nothing; a single-document write that returns an error
  wrote nothing; a transaction that returns an error committed nothing.
* Nobody else writes the modelled stores; a new loan is opened only for a subscriber without one;
  `educationPeriodTimestamp`, which no service writes, lies in the past.
* Rates and fees are not negative; trace ids are fresh; the wallet amount of a message parses; error
  texts are not empty; insertion order is the order of `_id`.
* The wallet client's errors have its own error type with the inner error set.

## Model

| member | source | states |
|---|---|---|
| `Deduction.ComputeMaxDeductibleAmount` | `promo-collection/utils/max_deduction_amount.go:5-8` | The allowance is a lower bound of both arguments and one of them: the minimum of M*P and L*C. |
| `Deduction.DeductionIsOptimal` | `promo-collection/internal/service/promo_collection/data_deduction_calculation.go:38-106` | With a positive loan rate: full iff M*P covers the debt and then exactly the debt; partial iff M*P is below it and reaches the minimum, and then the greatest whole-peso amount the allowance pays for, strictly below the debt; never more data than M*P; the default branch and the encoding error cannot occur. |
| `Deduction.GreatestWholeAmount` | `promo-collection/internal/service/promo_collection/data_deduction_calculation.go:93-95` | Rounding the quotient down gives an affordable number of pesos that no other affordable whole number exceeds. |
| `Deduction.NoLoanRateNeverPublishes` | `promo-collection/internal/service/promo_collection/data_deduction_calculation.go:167` | The message divides by the rate of the loan document: when the rate came from the matrix nothing is ever published, exactly the events that would have collected cannot be encoded. |
| `Ledger.CalculateUnpaidServiceFee` | `promo-collection-worker/internal/pkg/common/serializers.go:124-129` | What is left of the fee is the fee less the amount, never below 0. |
| `LedgerInvariant.RecordsAccount` | `promo-collection-worker/internal/service/success_handling/partial_data_deduction.go:193-224` | Both success records account for their message: running totals, debt = principal + fee, fee = collected + unpaid, amount collected. |
| `LedgerInvariant.PostPartialKeeps` | `promo-collection-worker/internal/service/success_handling/partial_data_deduction.go:416-459` | A partial transaction of a current message that commits keeps conservation, version history, fee bound and record totals of every loan. |
| `LedgerInvariant.PostFullKeeps` | `promo-collection-worker/internal/service/success_handling/full_data_deduction.go:270-314` | The same for a full transaction, which also closes the loan with exactly its total collected and leaves no version open. |
| `LedgerInvariant.CurrentCommitsIff` | `promo-collection-worker/internal/pkg/store/impl/unpaid_loans/unpaid_loans_repo.go:45-51` | A current message can be posted if and only if the amounts of the newest version, and for a partial collection the fee of the loan, fit the worker's int32 fields. |
| `LedgerContents.PartialContents` | `promo-collection-worker/internal/service/success_handling/partial_data_deduction.go:193-275` | A committed partial transaction, field by field: the loan's balance, the open version with its debt and stored fee, the record, nothing else. |
| `LedgerContents.FullContents` | `promo-collection-worker/internal/service/success_handling/full_data_deduction.go:270-369` | A committed full transaction, field by field: the loan gone, one closed document with GUID and total, a last version that owes nothing, shows the total and stores the message's unpaid fee less the whole fee, 0 iff the message carried the whole fee; the record. |
| `LedgerContents.FailureContents` | `promo-collection-worker/internal/pkg/common/serializers.go:13-71` | A failure record, field by field: nothing taken, debt, fee and totals as the message found them, the given text. |
| `LedgerContents.SerializerAlone` | `promo-collection-worker/internal/pkg/common/serializers.go:34-54` | The serializer on its own: for a partial collection it adds the pesos to the loan's total instead of to what was collected before, which the handler overwrites; everything else is the message's. |
| `LedgerInvariant.StoredFeeBound` | `promo-collection-worker/internal/service/success_handling/partial_data_deduction.go:446` | Subtracting the cumulative collected fee can only store too little: never above the fee-first remainder. |
| `LedgerWrites.FailureKeeps` | `promo-collection-worker/internal/pkg/common/serializers.go:55-67` | A failure record changes no balance and shows the totals of its moment. |
| `LedgerWrites.RepairKeeps` | `promo-collection/internal/service/promo_collection/collection_rules.go:119-141` | Filling in a missing loan total from the open version keeps the ledger consistent. |
| `LedgerWrites.OpenKeeps` | `loan-availment/internal/pkg/common/serializers.go:71-107` | Opening a loan with its first version keeps the ledger consistent for all others. |
| `LedgerWrites.NewLoanOpens` | `loan-availment/internal/pkg/common/serializers.go:71-107` | A new loan and its first version agree: everything lent is owed, the whole fee unpaid, version 1 open. |
| `LedgerWrites.PostScope` | `promo-collection-worker/internal/service/success_handling/partial_data_deduction.go:426-451` | A transaction touches one subscriber and one loan: one version more, numbered one above the message, earlier numbers untouched, one record more. |
| `LedgerWrites.PostKeepsFits` | `promo-collection-worker/internal/service/success_handling/partial_data_deduction.go:426-451` | Posting one subscriber's message leaves every message of another subscriber current. |
| `LedgerWrites.PostVersion` | `promo-collection-worker/internal/service/success_handling/partial_data_deduction.go:271` | A post extends the chain of consecutive versions exactly when the message was built from a successful read of the open version. |
| `LedgerWrites.SecondPostBreaksLedger` | `promo-collection-worker/internal/service/success_handling/partial_data_deduction.go:425-452` | The transaction has no guard of its own: once posted, a message can be posted again exactly if its fee is whole, and then breaks the ledger whenever it takes something. |
| `WorkerHandler.Handler.PerformPartialTransaction` | `promo-collection-worker/internal/service/success_handling/partial_data_deduction.go:416-459` | All five steps succeed and the documents exist iff the transaction commits, and then the stores are those of the specification; otherwise they are unchanged. |
| `WorkerHandler.Handler.PerformFullTransaction` | `promo-collection-worker/internal/service/success_handling/full_data_deduction.go:270-314` | The same for the full transaction and its five writes. |
| `WorkerHandler.Handler.UpdatePreviousValidTo` | `promo-collection-worker/internal/pkg/store/impl/unpaid_loans/unpaid_loans_repo.go:45-59` | Exactly the newest version of the loan gets its end date; without a version, or with one whose amounts are not whole, the call fails and changes nothing. |
| `LedgerInvariant.SupersededVersions` | `promo-collection-worker/internal/pkg/store/impl/unpaid_loans/unpaid_loans_repo.go:34-59` | Closing the newest version and inserting another: one version more, the new one last, earlier ones unchanged but for the closed one, and only the new one can be open. |
| `WorkerHandler.Handler.CreateEntry` | `promo-collection-worker/internal/pkg/store/impl/collections/collections_repo.go:49-58` | A successful insert returns the id under which the record is found; a failed one changes nothing and its id names no document. |
| `LedgerInvariant.UpdateTouchesOne` | `promo-collection-worker/internal/pkg/store/impl/loans/loans_repo.go:124-144` | On a consistent ledger the update by loan id changes the balance of exactly one subscriber's loan. |
| `LedgerInvariant.DeleteTouchesOne` | `promo-collection-worker/internal/pkg/store/impl/loans/loans_repo.go:75-87` | On a consistent ledger the delete by loan id removes exactly one subscriber's loan. |
| `LedgerInvariant.FullShape` | `promo-collection-worker/internal/service/success_handling/full_data_deduction.go:280-306` | A full transaction of a current message that commits leaves one closed document for the loan, one version and one record more, and exactly the subscriber's loan gone. |
| `WorkerHandler.Handler.Finalize` | `promo-collection-worker/internal/service/success_handling/partial_data_deduction.go:277-306` | After a commit: publish, release, flag in this order, each error ending the rest; the message is acknowledged as posted in every case. |
| `WorkerHandler.Handler.PartialDataDeduction` | `promo-collection-worker/internal/service/success_handling/partial_data_deduction.go:98-162` | Acknowledged as posted iff loan, rules and transaction were fine, and then the ledger is the transaction, else unchanged; the entry is released iff also Kafka and the delete were; the record is flagged iff also the flag update was. |
| `WorkerHandler.Handler.FullDataDeduction` | `promo-collection-worker/internal/service/success_handling/full_data_deduction.go:74-128` | The same for a full collection. |
| `WorkerHandler.Handler.HandleUnknownOrNonAPIError` | `promo-collection-worker/internal/service/error_handling/decrement_wallet_subscription_error_handler.go:154-203` | Acknowledged without posting; a failure record with the fixed text is written iff the insert succeeds, never flagged; the entry is released iff the delete succeeds. |
| `WorkerHandler.Handler.HandleApiError` | `promo-collection-worker/internal/service/error_handling/decrement_wallet_subscription_error_handler.go:38-99` | System and outbound-connection errors leave the message for redelivery with its entry held; all others are acknowledged and release it; the failure record carries the error's text and is flagged iff it was written, published and the update succeeded. |
| `WorkerHandler.Handler.HandleUsageError` | `promo-collection-worker/internal/service/error_handling/retrieve_subscriber_usage_error_handler.go:72-119` | A missing bucket is recorded with its text, flagged iff written and published, and releases the entry; a failed lookup writes nothing and is acknowledged with the entry still held. |
| `WorkerHandler.Handler.HandleNoResponse` | `promo-collection-worker/internal/service/pubsub/pubsub_service.go:256-283` | After a timeout the usage answer alone decides; action, phase, ledger, entry and flag in closed form, redelivery leaving all stores as they were. |
| `WorkerHandler.Handler.RequestWallet` | `promo-collection-worker/internal/service/pubsub/pubsub_service.go:178-253` | Action, phase, ledger, entry and flag for every wallet answer, in closed form. |
| `WorkerHandler.DeliveryWritesOnce` | `promo-collection-worker/internal/service/pubsub/pubsub_service.go:178-283` | One delivery either applies the transaction once to the stores it found and writes nothing else, or changes no balance and adds at most a failure record. |
| `WorkerHandler.Handler.HandlePromoCollectionMessage` | `promo-collection-worker/internal/service/pubsub/pubsub_service.go:147-297` | One delivery in closed form: ack, nack or ignore; posted iff the deduction is taken to have happened and the transaction committed, whatever failed later; the ledger is that transaction, or has the failure record of its branch, or is unchanged; the entry freed exactly in the cases of Frees and the record flagged exactly in those of Flags. |
| `DeliveryOutcomes.ActionsByField` | `promo-collection-worker/internal/service/pubsub/pubsub_service.go:147-297` | By the answers' fields: nacked if and only if the payload does not decode, or the wallet is silent and the bucket shows less taken than ordered; left for redelivery if and only if the wallet refused with OUTBOUND_CONN_ERROR or, in the code its status selects, a decimal text of value 9000; acknowledged otherwise. |
| `DeliveryOutcomes.RefusalOutcome` | `promo-collection-worker/internal/service/error_handling/decrement_wallet_subscription_error_handler.go:38-152` | A refusal is redelivered with its entry held or acknowledged with its entry deleted, by its fields; balances stay, and the record carries the details for a status other than 200, the description for 200. |
| `DeliveryOutcomes.PostingByField` | `promo-collection-worker/internal/service/pubsub/pubsub_service.go:178-283` | The success handler runs if and only if the wallet confirmed, or was silent and the bucket shows at least the data to deduct as taken. |
| `DeliveryOutcomes.AtoiIs9000` | `promo-collection-worker/internal/service/error_handling/decrement_wallet_subscription_error_handler.go:47-56` | A code text counts as 9000 exactly if it is an optional plus sign, zeros and 9000. |
| `WorkerHandler.EntryKeptIff` | `promo-collection-worker/internal/service/error_handling/retrieve_subscriber_usage_error_handler.go:93-119` | After an acknowledgement the entry is still held exactly when the usage lookup failed, the success handler stopped before its delete, or a delete failed; without one it is always held. |
| `HandlerRefinement.HandlerReachesProtocolStates` | `promo-collection-worker/internal/service/pubsub/pubsub_service.go:178-283` | Whatever path the handler takes from a reachable state of the protocol ends in a reachable state. |
| `HandlerRefinement.ProducerReachesProtocolStates` | `promo-collection/internal/service/promo_collection/business_rules.go:66-207` | Whatever an event makes the producer do from a reachable state of the protocol ends in a reachable state. |
| `ProducerHandler.Producer.DeleteEntry` | `promo-collection/internal/pkg/store/impl/collection_transaction_in_progress/collection_transactions_in_progress_repo.go:65-74` | One entry of the subscriber disappears, or nothing changes. |
| `ProducerHandler.Producer.CheckSkipWindows` | `promo-collection/internal/service/promo_collection/business_rules.go:112-184` | Decision, loan windows, rate and key of steps 4 to 8, for every answer, in the subscriber's own document and key only; a loan whose total does not fit an int32 is a failed read. |
| `ProducerHandler.UnreadableLoanIsSkipped` | `promo-collection/internal/service/promo_collection/business_rules.go:367-395` | A loan whose total does not fit an int32 gets no event past the skip check; for any other the answers are taken as they are. |
| `ProducerHandler.Producer.CollectionRules` | `promo-collection/internal/service/promo_collection/collection_rules.go:26-74` | Loans and topic are exactly what the rules make of the stores: the message out if and only if it was sent and the publishing succeeded, only while the entry is held; below the minimum the entry is deleted; every error leaves it to the cleanup; a refilled balance rewrites the education window. |
| `ProducerHandler.Producer.CheckBusinessLevelRules` | `promo-collection/internal/service/promo_collection/business_rules.go:66-207` | An event without an entry of its own changes nothing; with one it is skipped exactly when the skip check says so, and then publishes nothing; otherwise loans and topic are exactly those of the collection rules on the loan as rated; it keeps the entry behind a published message, else attempts to delete it and has succeeded unless every attempt failed; windows and keys of others stay. |
| `ProducerHandler.NeverIgnored` | `promo-collection/internal/service/promo_collection/data_deduction_calculation.go:61-63` | The default branch of the switch is unreachable for all inputs, rates and balances. |
| `ProtocolInvariant.CollectionFits` | `promo-collection/internal/service/promo_collection/collection_rules.go:47-73` | What the producer publishes is what the stores hold: balance, loan, version and fee of the open document, amount within the debt. |
| `PublishedMessages.ReadIsFirstOpen` | `promo-collection/internal/pkg/store/impl/unpaid_loans.go:34-57` | The version read is the first open one, if the store answers and its amounts are whole. |
| `PublishedMessages.SendIff` | `promo-collection/internal/service/promo_collection/collection_rules.go:26-74` | A message is sent if and only if the loan can be read and owes something, by its field or by the version that then refills it, carries a rate, and M*P covers the debt or reaches the minimum. |
| `PublishedMessages.MessageFacts` | `promo-collection/internal/service/promo_collection/data_deduction_calculation.go:127-179` | Every published message: terms, balance and GUID of the loan as stored, version and fee of the open version or 0 after a failed read, wallet and the rest of the event, full iff M*P covers the debt, data = pesos times rate and at most M*P, kind, data and pesos the optimal deduction. |
| `ProtocolInvariant.StepDiscipline` | `promo-collection-worker/internal/service/pubsub/pubsub_service.go:178-283` | A step that touches ledger or entry is taken only by a live, not yet posted message; after it the message never becomes deliverable again. |
| `ProtocolInvariant.StepKeepsStores` | `promo-collection/internal/service/promo_collection/business_rules.go:82-110` | Every step of producer, worker and loan opening keeps the ledger and version invariants. |
| `ProtocolInvariant.StepKeepsControl` | `promo-collection/internal/service/promo_collection/business_rules.go:82-110` | Every step keeps the lock, currency and at-most-once invariants. |
| `ProtocolTheorems.ActiveLoansBalance` | `promo-collection-worker/internal/service/success_handling/partial_data_deduction.go:426-451` | In every reachable state an active loan has exactly its newest version open, showing the opening debt less everything collected, and the loan document agrees. |
| `ProtocolTheorems.ClosedLoansAreRepaid` | `promo-collection-worker/internal/service/success_handling/full_data_deduction.go:280-306` | A closed loan has no open version, collected exactly its opening debt, one closed document with its total, and no active document. |
| `ProtocolTheorems.RecordsShowRunningTotals` | `promo-collection-worker/internal/pkg/common/serializers.go:34-67` | Every record, success or failure, shows the sums of its moment; debt = principal + fee; on success the fee splits exactly. |
| `ProtocolTheorems.VersionsMatchRecords` | `promo-collection-worker/internal/pkg/store/impl/unpaid_loans/unpaid_loans_repo.go:34-59` | One version per success record, each pointing at the record that produced it. |
| `ProtocolTheorems.VersionsConsecutiveIff` | `promo-collection-worker/internal/service/success_handling/partial_data_deduction.go:271` | Over any run a loan's versions are consecutive exactly when no message built from a failed UnpaidLoans read was posted for it. |
| `ProtocolTheorems.InFlightMessagesAreCurrent` | `promo-collection/internal/pkg/store/impl/unpaid_loans.go:34-57` | A message that may still be posted is never stale, however often it was redelivered. |
| `ProtocolTheorems.LockIsExclusive` | `promo-collection/internal/pkg/store/impl/collection_transaction_in_progress/collection_transactions_in_progress_repo.go:36-74` | At most one entry and one live message per subscriber; a live message, also one awaiting redelivery, holds the entry and excludes the producer. |
| `ProtocolTheorems.LiveMessageBlocksProducer` | `promo-collection/internal/service/promo_collection/business_rules.go:82-92` | No event of a subscriber with a live message gets past the check. |
| `ProtocolTheorems.PostedAtMostOnce` | `promo-collection-worker/internal/pkg/pubsub/consumer.go:112-139` | Over any number of redeliveries a message leaves at most one success record, exactly when its handler passed the transaction, and is then not deliverable. |
| `MessageTraces.TraceLeadsToPhase` | `promo-collection-worker/internal/pkg/pubsub/consumer.go:112-139` | In every run the phase of a message is where its own steps lead, whatever happened to other messages in between. |
| `MessageTraces.DeliveriesEnd` | `promo-collection-worker/internal/pkg/pubsub/consumer.go:116-138` | In every run a delivery takes at most seven steps, itself included, until it returns; a message back in the queue finds the balances it was built from. |
| `Overlap.OverlappingDeliveriesPostTwice` | `promo-collection-worker/internal/pkg/pubsub/consumer.go:115` | From every reachable state with a delivered message that can be posted and whose fee is whole: a second delivery while the handler runs posts as well, and the ledger breaks if the message takes something. |
| `ProtocolWitnesses.PostableIff` | `promo-collection-worker/internal/pkg/store/impl/unpaid_loans/unpaid_loans_repo.go:45-51` | In every reachable state a message that may still be posted can be, if and only if the worker can decode the newest version and, for a partial collection, the fee of the loan. |
| `ProtocolWitnesses.FractionalDebtIsUnpostable` | `promo-collection-worker/internal/pkg/store/impl/unpaid_loans/unpaid_loans_repo.go:45-51` | A reachable state with a queued message that no delivery can ever post: the loan owes 100.5 pesos. |
| `ProtocolWitnesses.CollectionGoesThrough` | `promo-collection-worker/internal/service/pubsub/pubsub_service.go:178-230` | From every reachable state an event that finds no entry and leads to a message the worker can decode for can be collected to the end, leaving the transaction applied once and the entry free. |
| `ProtocolWitnesses.StaleReadBreaksVersions` | `promo-collection/internal/service/promo_collection/collection_rules.go:117-119` | A run in which a failed UnpaidLoans read gives two versions the same number. |
| `ProtocolWitnesses.SecondCollectionStoresFeeTooLow` | `promo-collection-worker/internal/service/success_handling/partial_data_deduction.go:446` | A run with two successfully read partial collections after which 2 pesos of the fee are owed and -2 are stored. |
| `Debits.DebitedOnceIff` | `promo-collection-worker/internal/service/pubsub/pubsub_service.go:256-283` | Through all timeouts and redeliveries, if no redelivered refusal had debited: every posted message was debited exactly once if and only if the balance check is right about a bucket debited once and about an untouched one. |
| `Debits.DebitingRefusalPostsTwice` | `promo-collection-worker/internal/service/error_handling/decrement_wallet_subscription_error_handler.go:78-98` | A journey in which a redelivered refusal had debited: the message is posted after two debits, whatever the check would say. |
| `Debits.WrongCheckMisposts` | `promo-collection-worker/internal/service/pubsub/pubsub_service.go:256-283` | From every run of the protocol with a queued, undebited, postable message whose check is wrong some continuation posts it after no debit or after two. |
| `Debits.RightChecks` | `promo-collection-worker/internal/service/error_handling/retrieve_subscriber_usage_error_handler.go:129-135` | With 1000 KB to the MB it is for every deduction above 3/128 of the wallet that leaves 1/48 MB; with 1024 KB for none above 1/48 MB. |
| `Debits.PostedIsDebitedOnce` | `promo-collection-worker/internal/service/pubsub/pubsub_service.go:233-283` | In every run of the protocol with truthful lookups, a right check and no debit behind a redelivered refusal: posted means debited once, deliverable again means not debited, no message is debited twice; a debit without a post is left only by a failed transaction, a failed lookup, a missing bucket, an unreadable answer or a refusal. |
| `EntryAccounts.EntryHeldIff` | `promo-collection/internal/service/promo_collection/business_rules.go:101-110` | At every moment of every run an entry is there if and only if the producer works under it, a live message holds it, or an earlier step left it behind (deferred cleanup, usage lookup, transaction, publishing or a delete failed); the three exclude one another. |
| `EntryAccounts.LeftBehindForGood` | `promo-collection/internal/service/promo_collection/business_rules.go:82-92` | An entry left behind is never removed: from then on the subscriber has no live message and no event of it gets past the check. |
| `ProtocolTheorems.RepaymentEnds` | `promo-collection/internal/service/promo_collection/data_deduction_calculation.go:93-106` | With a minimum of at least q >= 1 whole pesos a loan has at most floor(opening debt / q) partial collections, each leaving a positive balance. |
| `ProtocolTheorems.OpenVersionIsReadable` | `promo-collection/internal/pkg/store/models/db_schema.go:89-102` | Whole opening amounts stay whole over any run, so all int32 amounts of the open version can always be read. |
| `ProtocolTheorems.StoredFeeNeverTooHigh` | `promo-collection-worker/internal/service/success_handling/partial_data_deduction.go:446` | Over any run every stored fee is at most the fee-first remainder. |
| `ProtocolTheorems.StoredFeeRightIff` | `promo-collection-worker/internal/service/success_handling/partial_data_deduction.go:446` | The fee a partial collection stores is right exactly when the message still carries the whole fee as unpaid. |
| `FeeTheorems.SecondVersionFeeRightIff` | `promo-collection-worker/internal/service/success_handling/partial_data_deduction.go:446` | Over any run the version written by a loan's first partial collection shows the fee-first remainder if and only if its message carried the whole fee, hence always for a loan opened with its whole fee unpaid and a successful read. |
| `FeeLaws.EveryVersionFee` | `promo-collection-worker/internal/service/success_handling/partial_data_deduction.go:446` | Over any run every version a collection wrote stores the fee its message carried (the previous version's, or 0 after a failed read) less the fee collected so far by its record, and a total only if it closed the loan. |
| `FeeLaws.ClosingFee` | `promo-collection-worker/internal/service/success_handling/full_data_deduction.go:298` | Over any run the last version of a closed loan shows its total, and fee 0 if and only if the closing message carried the whole fee. |
| `Rows.SuccessColumns` | `promo-collection-worker/internal/service/kafka/kafka_service.go:57-78` | Column by column when the live row and the row rebuilt from the success record agree; never in column 9. |
| `Rows.LiveAndRetryRowsAgree` | `promo-collection-worker/internal/service/kafka_retry_service.go:422-468` | In every reachable state the row rebuilt from the record a post leaves, with the GUID the lookups find, agrees with the live row in exactly the columns ColumnAgrees names. With whole opening amounts and a zone of whole minutes these are all but 9, 2 unless the process runs on UTC and, when fee is left, 16 (partial) or 6 and 8 (full); a full collection leaves none if the fee was within the debt at opening. |
| `Rows.FailureColumns` | `promo-collection-worker/internal/service/kafka_retry_service.go:422-468` | Failure rows agree in all columns but 2, 6, 9 and 16, with the exact conditions for 2, 6 and 16. |
| `Rows.LiveRowContents` | `promo-collection-worker/internal/service/kafka/kafka_service.go:57-78` | The live row: identity, minute and codes of the message; "Success" in column 9 iff it is one; the amount columns as what was collected so far, debt and fee left, this collection and its data; for a failure the debt and fee as found, nothing taken. |
| `Rows.RetriedSuccessContents` | `promo-collection-worker/internal/service/kafka_retry_service.go:422-468` | The row rebuilt from a success record: "true", the same sums, the fee of a full collection shown as settled, column 16 the debt without its fee. |
| `Rows.RetriedFailureContents` | `promo-collection-worker/internal/service/kafka_retry_service.go:422-468` | The row rebuilt from a failure record: "false", its text, no fee as taken, column 16 the debt without its fee. |
| `BalanceCheck.DecimalBucketIff` | `promo-collection-worker/internal/service/error_handling/retrieve_subscriber_usage_error_handler.go:129-135` | With 1000 KB to the MB: exact conditions for the check before and after the deduction. |
| `BalanceCheck.DecimalBucketBounds` | `promo-collection-worker/internal/service/error_handling/retrieve_subscriber_usage_error_handler.go:129-135` | After the deduction "happened" for every D <= W - 1/48; before it "not happened" for every D > 3W/128. |
| `BalanceCheck.DecimalBoundIsTight` | `promo-collection-worker/internal/service/pubsub/pubsub_service.go:302` | For orders half a KB above an even number the bound W - 1/48 is exact. |
| `BalanceCheck.BinaryBucketDenies` | `promo-collection-worker/internal/service/error_handling/retrieve_subscriber_usage_error_handler.go:130-135` | With 1024 KB to the MB every completed deduction above 1/48 MB is denied. |
| `RetryAccounts.StepKeepsBalance` | `promo-collection-worker/internal/service/kafka_retry_service.go:144-188` | At every step every decoded document is in exactly one place, and those Kafka accepted in exactly one place on the success side. |
| `RetryControl.StepKeepsControl` | `promo-collection-worker/internal/service/kafka_retry_service.go:110-142` | Every step keeps closing order, channel bounds, worker shapes and "flagged implies accepted". |
| `RetryProgress.StepLowersMeasure` | `promo-collection-worker/internal/service/kafka_retry_service.go:359-400` | Every step, of any routine and under any answer, lowers one measure over cursor, channels, batches and open channels. |
| `RetryProgress.NoDeadlock` | `promo-collection-worker/internal/service/kafka_retry_service.go:203-263` | As long as the run has not returned, a step other than cancellation is enabled. |
| `RetryProgress.SendersFindChannelsOpen` | `promo-collection-worker/internal/service/kafka_retry_service.go:244-247` | No routine sends on a closed channel. |
| `RetryTheorems.RunConserves` | `promo-collection-worker/internal/service/kafka_retry_service.go:265-357` | Every uncancelled run, for any worker count, buffer and batch size: successes are exactly the accepted documents, successes and failures together exactly the decoded ones, as multisets. |
| `RetryTheorems.ReportsAreSound` | `promo-collection-worker/internal/service/kafka_retry_service.go:265-357` | At any moment of any run, cancelled or not: no id is reported more often than the cursor holds it, reported successes and flagged documents were accepted. |
| `RetryTheorems.NothingIsMissed` | `promo-collection-worker/internal/service/kafka_retry_service.go:50-67` | If the cursor does not break off, an uncancelled run accounts for every decodable item. |
| `RetryTheorems.RunsEnd` | `promo-collection-worker/internal/service/kafka_retry_service.go:203-263` | No run is longer than the measure of its start, and one that has not returned can go on. |
| `RetryTheorems.ErrorsAreReported` | `promo-collection-worker/internal/service/kafka_retry_service.go:190-201` | With a buffer of at least 1 an uncancelled run has an error message iff some publish, flag update or cursor read failed; a message is never made up. |
| `RetryOutcomes.AcceptedAreFlagged` | `promo-collection-worker/internal/service/kafka_retry_service.go:306-345` | In an uncancelled run whose flag updates reach their batches the documents flagged are exactly those Kafka accepted. |
| `RetryOutcomes.FirstErrorIsReported` | `promo-collection-worker/internal/service/kafka_retry_service.go:190-201` | The message of an uncancelled run is the text of the step at which the first error got into the channel; later errors leave it alone. |
| `RetryOutcomes.ResponseIsFinal` | `promo-collection-worker/internal/service/kafka_retry_service.go:144-188` | Once the collector has stopped nothing changes the response any more. |
| `RetryOutcomes.BrokenOffBatch` | `promo-collection-worker/internal/service/kafka_retry_service.go:286-297` | A batch is broken off only at a rejected document under cancellation; that one, all after it and all failed before are given up unreported, and so are its accepted ones. |
| `RetryRepeated.UnbufferedRunCanHideErrors` | `promo-collection-worker/internal/service/kafka_retry_service.go:289-295` | A run with buffer 0 that returns without an error message although its publish failed: the buffer condition cannot be dropped. |
| `RetryRepeated.PassIsSound` | `promo-collection-worker/internal/pkg/store/impl/collections/collections_repo.go:98-105` | One pass over the selected documents: flags imply acceptance, only unflagged documents are published, no id is reported twice. |
| `RetryRepeated.FlagsMeanAccepted` | `promo-collection-worker/internal/pkg/store/impl/collections/collections_repo.go:161-200` | Over any number of passes, cut off anywhere: a newly flagged document was accepted in an earlier pass. |
| `RetryRepeated.UnacceptedIsSelectedAgain` | `promo-collection-worker/internal/pkg/store/impl/collections/collections_repo.go:98-105` | A document no pass got accepted is unflagged and selected by the next one. |
| `RetryRoutines.ProcessAndPublishBatch` | `promo-collection-worker/internal/service/kafka_retry_service.go:265-304` | The id lists of a batch partition it and are those of the pipeline's worker; an aborted batch hands over nothing. |
| `RetryRoutines.PublishedIsChosen` | `promo-collection-worker/internal/service/kafka_retry_service.go:279-301` | The pipeline's step-by-step worker sorts documents by acceptance, in order. |
| `RetryRoutines.ChosenPartition` | `promo-collection-worker/internal/service/kafka_retry_service.go:279-301` | Accepted and other documents of a batch are together exactly the batch. |
| `RetryRoutines.ProcessDocumentsWorker` | `promo-collection-worker/internal/service/kafka_retry_service.go:359-400` | The batches are the received documents cut in order, none empty, none above the limit, nothing left behind, and cut exactly where the pipeline's worker cuts. |
| `RetryRoutines.CollectResults` | `promo-collection-worker/internal/service/kafka_retry_service.go:144-201` | The response holds all id lists in arrival order and the first error; the collector returns when all channels have ended or the context is done. |
| `RetryRoutines.FirstTextIsFirst` | `promo-collection-worker/internal/service/kafka_retry_service.go:197-199` | The kept error is the first one. |
| `SkipCache.RedisStore.SaveSkipTimestamps` | `promo-collection/internal/pkg/store/repository/redis_repo.go:47-70` | The stored entry and its expiry: the later window, at least a second; other keys stay. |
| `SkipCache.RedisStore.CheckActivePeriod` | `promo-collection/internal/service/promo_collection/business_rules.go:278-363` | The cached decision and the key afterwards for every answer of Redis. |
| `SkipCache.RedisStore.ProcessOldLoan` | `promo-collection/internal/service/promo_collection/business_rules.go:404-482` | Decision, loan windows and key for an old loan, for every answer. |
| `SkipCache.RedisStore.CheckSkipWindows` | `promo-collection/internal/service/promo_collection/business_rules.go:112-184` | Decision, loan and key of steps 4 to 8 of an event. |
| `SkipCacheTheorems.StepKeepsInv` | `promo-collection/internal/service/promo_collection/business_rules.go:278-363` | Every write, expiry, loss and collection keeps: running cached windows are the loan's own, and unlost grace periods are cached. |
| `SkipCacheTheorems.CachedCheckRefinesDirect` | `promo-collection/internal/service/promo_collection/business_rules.go:164-184` | In every reachable state a new loan is skipped exactly when the direct check says so or a cached grace period runs. |
| `SkipCacheTheorems.NothingPassesAWindow` | `promo-collection/internal/service/promo_collection/business_rules.go:165-179` | For any content of the cache at all, an event that proceeds is past the loan's education and load windows. |
| `SkipDecisions.LoanWithTerms` | `promo-collection/internal/pkg/store/impl/loans/loans_repo.go:123-132` | A loan with a rate or a window is decided by the key and its three timestamps alone, and never changed, whatever the whitelist answers. |
| `SkipDecisions.LoanWithoutTerms` | `promo-collection/internal/service/promo_collection/business_rules.go:134-162` | A loan without rate and windows gets past if and only if the key lets it, the subscriber is whitelisted, the adoption is written, the whitelist entry deleted and the windows it was given have passed; it has exactly those windows and that rate once the adoption is written. |
| `SkipDecisions.KeyAfterwards` | `promo-collection/internal/service/promo_collection/business_rules.go:278-363` | The key is left alone, deleted when all of it has ended, or written by a skipped event with the loan's windows. |
| `SkipDecisions.AvailedKey` | `loan-availment/internal/pkg/store/availments.go:271-285` | The key written at availment carries the load window only and lasts until the later window has passed. |
| `SkipDecisions.GracePeriodLasts` | `promo-collection-worker/internal/service/success_handling/partial_data_deduction.go:228-263` | After a partial collection no event gets past for the configured hours while its key is there. |
| `SkipDecisions.EventLeaves` | `promo-collection/internal/service/promo_collection/business_rules.go:112-199` | An event leaves key and loan of its check, the education window replaced if it went on and the balance was refilled, and a message out exactly if it went on and published. |
| `SkipDecisions.DocumentGrace` | `promo-collection-worker/internal/service/success_handling/partial_data_deduction.go:461-483` | The partial transaction gives the loan document a grace period of the configured hours from the moment it was computed, and leaves the key alone. |
| `SkipDecisions.GraceKeyWritten` | `promo-collection-worker/internal/service/success_handling/partial_data_deduction.go:228-263` | The key then gets its own grace period, from the moment of writing, or stays as it was if the write failed. |
| `SkipDecisions.NewLoanStarts` | `loan-availment/internal/pkg/store/availments.go:249-294` | A loan opened at availment starts without grace period and leaves an unwritten key as it was. |
| `SkipDecisions.LoansComeAndGo` | `promo-collection-worker/internal/service/success_handling/full_data_deduction.go:280-306` | A migrated loan, a closed one and a message that ends unposted leave the key alone. |
| `SkipCacheTheorems.CollectionsOnlyOutsideWindows` | `promo-collection/internal/service/promo_collection/business_rules.go:186-199` | Over any run, while a collection message is out its loan is past both windows. |
| `SkipCacheTheorems.GraceIsHonouredWithoutLoss` | `promo-collection-worker/internal/service/success_handling/partial_data_deduction.go:228-263` | Without a lost key or write no event gets past the document's grace period, unless the key was given a shorter period, and then none past that. |
| `SkipCacheTheorems.DocumentGraceIsIgnored` | `promo-collection/internal/service/promo_collection/business_rules.go:166-170` | Past its windows a loan is skipped iff a cached grace period runs; the grace timestamp of the document has no influence. |
| `SkipCacheTheorems.LostKeyBreaksGrace` | `promo-collection/internal/service/promo_collection/business_rules.go:166-170` | A run in which losing the key lets an event through inside the grace period. |
| `SkipCacheTheorems.SavedKeyCoversItsWindows` | `promo-collection/internal/pkg/store/repository/redis_repo.go:54-62` | A saved key is visible as long as a window of it runs, at least a second, and not after. |
| `SkipCacheTheorems.GraceKeyOutlivesGrace` | `promo-collection-worker/internal/service/success_handling/partial_data_deduction.go:240-253` | The worker's key outlives the grace period; a period of 0 leaves a key for ever that protects nothing. |
| `Report.AdjacentWindows` | `loan-availment/internal/pkg/store/availment_reports.go:66-71` | Half-open neighbouring windows neither miss nor repeat a document. |
| `Report.QueryFindsWindow` | `loan-availment/internal/pkg/store/availment_reports.go:65-71` | A query finds each document created in [from, to) as often as the collection holds it, and no other. |
| `Report.ReadChunks` | `loan-availment/internal/pkg/store/availment_reports.go:57-190` | One attempt: complete with the rows of one query over the whole window, failed, or out of queries, as the attempt-level specification says. |
| `Report.AvailmentReports` | `loan-availment/internal/pkg/store/availment_reports.go:28-207` | For every pattern of failing queries and every configuration: the report holds exactly the documents created in [start, end), each as often as stored and in the order of one query, or gives up, or is still running, exactly as specified; a REPORT_CHUNKS of 0 divides by zero. |
| `ReportTheorems.TerminationIff` | `loan-availment/internal/pkg/store/availment_reports.go:30-60` | The loop ends whatever fails iff 1 <= REPORT_CHUNKS <= 24 or the window is empty, and then within six times the hours of the window. |
| `ReportTheorems.StuckWithoutErrors` | `loan-availment/internal/pkg/store/availment_reports.go:57-60` | A chunk size of 0 or less never advances while nothing fails. |
| `ReportTheorems.GivingUpTakesErrors` | `loan-availment/internal/pkg/store/availment_reports.go:172-179` | Giving up from attempt k takes at least 6 - k failing queries. |
| `ReportTheorems.FiveErrorsAreTolerated` | `loan-availment/internal/pkg/store/availment_reports.go:172-183` | Up to five failing queries, wherever they fall, still give the complete report. |
| `ReportTheorems.SixErrorsEndIt` | `loan-availment/internal/pkg/store/availment_reports.go:177-179` | With every query failing the report gives up after the sixth. |

## Left out

- Report.AvailmentReports: watched through its first `limit` queries, for any limit, because for some configurations the loop never ends; TerminationIff gives the limit that is always enough. The collection is taken not to change during the report, and the start day is a parameter.
- ProtocolTheorems.PostedAtMostOnce: does not cover a redelivery while the handler still runs, because the code itself does not prevent it (consumer.go:115); OverlappingDeliveriesPostTwice shows what it would do.
- ProtocolTheorems.RepaymentEnds: q is a whole-peso lower bound of every MinCollectionAmount of the run, since the source reads it anew for each event.
- SkipCache.RedisStore.SaveSkipTimestamps: Redis rounds expiries to milliseconds, the model does not.
- SkipCacheTheorems.StepKeepsInv: its runs are seen from one subscriber, whose key and document no other subscriber's event touches (CheckBusinessLevelRules); that an event arrives only while no message of the subscriber is out is what LiveMessageBlocksProducer proves of the protocol.
- The repair of a missing loan balance also rewrites the promo education timestamp; the step system leaves the timestamps to ProducerHandler and SkipCache, where the repair has this effect.
- IEEE rounding, NaN and Inf: quotients are exact; a zero loan rate is modelled as the encoding error it leads to.
- int32 overflow of balances and versions.
- The lookup loop over the conversion matrix, including its trimming and case folding.
- The id slices of the bulk flag update: the set of documents it flags is any subset of the published ones.
- Rows of records this service does not write (category "Load" or none).
- Notifications, GCS upload, logging, message patterns and CSV byte encoding.
- Eligibility checks, whitelist files, brand and keyword validation: single branches or easy loops.
- The loan-availment transaction as a unit and its own in-progress entry: its writes do not share the session and its check and insert are not atomic; it is only the source of opening values.
- The loan-availment Kafka batch sender: its failure list starts from the success list, so no partition holds.
- Mongo aggregation beyond the two match filters.
