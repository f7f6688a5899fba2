# Deriv payment-agent bridge: orchestration model

This project models in Dafny the part of the Stepakash Deriv bridge that
moves money between a customer's wallet and the customer's Deriv account:

- `DerivService`, in `app/Services/DerivWebSocketService.php`. It has four
  orchestrations: `processDeposit`, `processWithdrawal`, `completeDeposit`
  and `completeWithdrawal`. It also has the payment-agent transfer
  `transferToDerivAccount`, plus the conversion and charge arithmetic.
- The queued job `ProcessDerivDeposit` in `app/Jobs/ProcessDerivDeposit.php`.

The ledger system behind `CodeIgniterBridgeService` is modelled as an
environment. Its state is a `Store` holding:

- deposit requests, under request ids the ledger system assigns, each
  carrying its transaction id;
- withdrawal requests, under request ids the ledger system assigns;
- the ledger;
- an SMS outbox of the messages requested (not of those delivered);
- a log of every call made.

Each bridge call changes the store as the `Bridge` transitions say. What the
call answers is an argument, the "oracle". This includes the bridge's own
normalisation of failures:

- the duplicate check fails open;
- the pending-withdrawals and sell-rate reads turn an error into an empty answer;
- a failed write reports the endpoint's message, its default, or "service unavailable".

Modules:

- `Money`: PHP's `round(x, 2)` (half away from zero) as `Round2`,
  `round(amount / kes, 2)` as `ToUsd`, and the two charge formulas.
- `DerivTransfer`: how `transferToDerivAccount` turns the authorize reply, the
  transfer reply, or a thrown exception into a result. It never throws.
- `Bridge`: the ledger system's records, the raw replies and their
  normalisation, and the store transitions of each bridge call.
- `Saga`: each orchestration as a function from the store before the call to
  the result and the store after it. The steps are in the source's order and
  each early throw is a `Failure`.
- `Service`: the classes `LedgerBridge` and `DerivService`. `DerivService`
  performs each orchestration step by step through the bridge object. Each
  method is proved to return the result and leave the store that the `Saga`
  function describes.
- `SagaProperties`: a call-log invariant that every orchestration preserves,
  and so does any sequence of them, each run to its end before the next
  starts. Every call is preceded by the calls it depends on, and no create
  reuses a stored request's id. Consequences:
  - every debit entry of the ledger was posted right after an accepted request
    update;
  - that update came right after a successful transfer;
  - that transfer came right after a Pending record was established.
- `DepositFacts` and `WithdrawalFacts`: what each branch of the orchestrations
  does and leaves behind.
- `DepositJob`: the job's state machine.
  - `HandleSpec` describes one run of `handle`.
  - `ProcessDerivDeposit.Handle` performs it on a `Backend` object.
  - With the database transaction taken as all-or-nothing, the two
    ledger-system tables stay paired across any sequence of runs.

Behaviours of the source that the lemmas exhibit:

- The duplicate check fails open. After a completed deposit, resubmitting the
  same transaction with the check unavailable transfers the money again,
  provided the second `createDepositRequest` is accepted. Two request
  records then carry the one transaction id.
- The balance gate compares rounded dollars. It admits a deposit up to half a
  cent's worth of shillings above the balance.
- `completeDeposit` reads the record by its `request_id` but sends that same
  `request_id` to `updateDepositRequest` as the `transaction_id`. Under the
  assumed matching rule of the ledger system's update endpoint (see
  "## Left out"), the update reaches the record read only when the record's
  transaction id is the text of its request id. Otherwise the record stays Pending, and a second
  callback for the same request transfers the money again.
- `completeWithdrawal` does not check that a sell rate came back. Reading
  `bought_at` of the empty answer raises before any write. This and the next
  item assume Laravel's error handler, which turns PHP's undefined-array-key
  warning into an `ErrorException`. Plain PHP 8 would go on with null and
  post a charge of 0.
- `completeWithdrawal`'s SMS reads the record's `transaction_number` with no
  fallback. When the key is absent this raises, under the same error
  handler, after the request was already marked withdrawn and its ledger
  entry posted.
- `handle` does not look at the record's status. Re-running it on a completed
  deposit transfers again and inserts a second pair of rows.
- In `handle`, an exception from the SMS service comes after the commit. The
  rows stay, yet the record ends up `failed`.

## Model

| member | source | states |
|---|---|---|
| Money.Round2 | app/Services/DerivWebSocketService.php:42 | the result is a whole number of cents within half a cent of x, rounding halves away from zero |
| Money.Round2Nearest | app/Services/DerivWebSocketService.php:42 | no amount in cents is closer to x than the rounded value |
| Money.Round2Monotone | app/Services/DerivWebSocketService.php:42 | rounding preserves order |
| Money.Round2Odd | app/Services/DerivWebSocketService.php:42 | rounding is symmetric about zero (half away from zero) |
| Money.Round2OfCents | app/Services/DerivWebSocketService.php:42 | an amount already in cents is unchanged |
| Money.ToUsd | app/Services/DerivWebSocketService.php:41-42 | the dollar amount is in cents and, converted back, lies within half a cent's worth of shillings of the amount |
| Money.MinimumDepositThreshold | app/Services/DerivWebSocketService.php:42-47 | the $2.50 minimum refuses exactly the shilling amounts below 2.495 times the rate |
| Money.ConversionExamples | app/Services/DerivWebSocketService.php:42 | 1000 shillings at 100 is 10.00 dollars; 333 at 100 is 3.33 |
| Money.ToKes | app/Services/DerivWebSocketService.php:305 | a whole-cent dollar amount converted to shillings and back with `round(amount / kes, 2)` is unchanged |
| Money.DepositCharge | app/Services/DerivWebSocketService.php:104-107 | on a positive amount the deposit charge is positive exactly when `kes` exceeds `bought_at` |
| Money.WithdrawalCharge | app/Services/DerivWebSocketService.php:287-290 | on a positive amount the withdrawal charge is positive exactly when `bought_at` exceeds `kes` |
| Money.DepositChargeIsMargin | app/Services/DerivWebSocketService.php:104-107 | the deposit charge is the shillings paid less the dollars' cost at `bought_at`, up to the half cent's worth that the rounding to cents moves |
| DerivTransfer.TransferToDerivAccount | app/Services/DerivWebSocketService.php:347-444 | a transfer request (to the login id, the amount, USD, "Deposit via Stepakash") is sent iff authorization returned without error and without a balance below the amount; success iff it was sent and the reply confirms `paymentagent_transfer == 1`; success says "Transfer successful"; an authorization error fails with "Authorization failed: " and the provider's message, else "Unknown error"; an exception fails as FaultResult says, and a transfer reply as TransferOutcome says |
| DerivTransfer.ErrorText | app/Services/DerivWebSocketService.php:372-409 | the provider error's `message` when it has one, else the stock text (`?? 'Unknown error'`, `?? 'Transfer failed'`) |
| DerivTransfer.TransferOutcome | app/Services/DerivWebSocketService.php:405-428 | the transfer reply gives success exactly when it has no error and confirms the transfer, and its data is the reply; an error fails with the provider's message, else "Transfer failed"; an unconfirmed reply without error fails with "Unexpected response from Deriv API" |
| DerivTransfer.FaultResult | app/Services/DerivWebSocketService.php:429-443 | a thrown exception becomes a failure with no data, never a throw; its message is "Connection error: " or "Transfer error: " followed by the exception's message |
| DerivTransfer.InsufficientAgentBalance | app/Services/DerivWebSocketService.php:380-388 | an agent balance below the amount gives "Insufficient payment agent balance" and sends no transfer |
| DerivTransfer.UnexpectedReplyIsFailure | app/Services/DerivWebSocketService.php:414-428 | a reply without error that does not confirm the transfer is "Unexpected response from Deriv API" |
| DerivTransfer.FaultAfterRequestIsFailure | app/Services/DerivWebSocketService.php:429-443 | an exception after the request was sent is a failure, not a success |
| Bridge.WriteFailure | app/Services/CodeIgniterBridgeService.php:176-190 | a failed write reports the endpoint's message, else its default, else the unavailable text on a transport error |
| Bridge.UserDataResult | app/Services/CodeIgniterBridgeService.php:56-85 | user data is returned exactly when served, and is the served data; otherwise the endpoint's message, else "Failed to get user data", else "User data service unavailable" on a transport error |
| Bridge.IsDuplicate | app/Services/CodeIgniterBridgeService.php:115-135 | a transaction counts as duplicate exactly when the endpoint answered true; no answer counts as new |
| Bridge.PendingWithdrawals | app/Services/CodeIgniterBridgeService.php:141-161 | a listed answer is returned as listed; an error gives the empty list |
| Bridge.SellRate | app/Services/CodeIgniterBridgeService.php:91-109 | a rate is returned exactly when one was quoted; errors give nothing |
| Bridge.PhoneField | app/Services/DerivWebSocketService.php:130-131 | a phone is present exactly when user info was served with a phone field, and it is that field's value |
| Bridge.NotifiablePhone | app/Services/DerivWebSocketService.php:130-133 | an SMS goes out exactly when the phone is present and neither "" nor "0" |
| Bridge.CreateDeposit | app/Services/CodeIgniterBridgeService.php:167-192 | an accepted create adds the request under the next request id and advances it; with fresh ids no stored record changes; a refused create changes only the log |
| Bridge.MarkDeposited | app/Services/DerivWebSocketService.php:87-91 | the update sets status 1, `deposited` and `processed_at`, and every other field is kept |
| Bridge.UpdateDeposit | app/Services/CodeIgniterBridgeService.php:197-225 | an accepted update marks deposited every record whose transaction id is the one sent, and keeps the rest; the ids, withdrawals and ledger are untouched |
| Bridge.CreateWithdrawal | app/Services/CodeIgniterBridgeService.php:256-281 | an accepted create stores the request under a fresh id and advances it, keeping ids fresh |
| Bridge.MarkWithdrawn | app/Services/DerivWebSocketService.php:293-297 | the update sets status 1, `withdraw` and `processed_at`, and every other field is kept |
| Bridge.UpdateWithdrawal | app/Services/CodeIgniterBridgeService.php:286-314 | an accepted update marks the record under the id withdrawn; nothing else changes |
| Bridge.PostLedger | app/Services/CodeIgniterBridgeService.php:345-370 | an accepted post appends exactly the entry; otherwise the ledger is unchanged |
| Bridge.ReadDeposit | app/Services/CodeIgniterBridgeService.php:230-250 | a record is returned exactly when the call is served and one exists, and it is the stored one |
| Bridge.ReadWithdrawal | app/Services/CodeIgniterBridgeService.php:319-339 | a record is returned exactly when the call is served and one exists, and it is the stored one |
| Saga.DepositEntry | app/Services/DerivWebSocketService.php:104-119 | the deposit entry is a debit charging the buy margin on the dollar amount, with the shilling amount and the rate, linked to the deposit by its transaction id, transaction number and wallet id |
| Saga.WithdrawalEntry | app/Services/DerivWebSocketService.php:304-318 | the withdrawal entry is a credit charging the sell margin, with `amount_kes = amount * stored rate`; its transaction id and number are the record's when present, else the generated ones |
| Saga.MessageCarriesDetail | app/Services/DerivWebSocketService.php:28-102 | the thrown message passes the endpoint's or the provider's message on unchanged, ends a failed write's message with the bridge's message, and ends the unreconciled message with the transaction id |
| Saga.BalanceUsd | app/Services/DerivWebSocketService.php:38-51 | the dollar balance converted back at the buy rate is the shilling balance, and is non-negative exactly when credits cover debits |
| Saga.DepositSaga | app/Services/DerivWebSocketService.php:25-144 | processDeposit only extends the call log, never touches withdrawals, appends at most one ledger entry, and changes the ledger or sends SMS only when it succeeds |
| Saga.SettleDeposit | app/Services/DerivWebSocketService.php:61-143 | after the checks, processDeposit only extends the log, appends at most one ledger entry, and changes the ledger or sends SMS only when it succeeds |
| Saga.WithdrawalSaga | app/Services/DerivWebSocketService.php:149-202 | processWithdrawal never touches deposits or the ledger, and stores a request only when it succeeds |
| Saga.CompleteDepositSaga | app/Services/DerivWebSocketService.php:207-260 | completeDeposit never posts to the ledger, touches withdrawals or adds deposit records; every deposit update it sends names the request id's text as transaction id, and the deposits change only as that update marks them |
| Saga.CompletePendingDeposit | app/Services/DerivWebSocketService.php:223-259 | after a not-yet-deposited record is read: no ledger post, no withdrawal change, no new record; the one update sent names the request id's text, and the deposits change only as MarkTransaction marks them with the record's amount |
| Saga.CompleteWithdrawalSaga | app/Services/DerivWebSocketService.php:265-342 | completeWithdrawal never touches deposits and appends at most one ledger entry |
| Service.LedgerBridge.GetUserData | app/Services/CodeIgniterBridgeService.php:56-85 | returns the normalised user data and records the call |
| Service.LedgerBridge.CheckDuplicateTransaction | app/Services/CodeIgniterBridgeService.php:115-135 | returns the fail-open duplicate answer and records the call |
| Service.LedgerBridge.CreateDepositRequest | app/Services/CodeIgniterBridgeService.php:167-192 | succeeds iff accepted, with the normalised failure message, and changes the store as `CreateDeposit` |
| Service.LedgerBridge.UpdateDepositRequest | app/Services/CodeIgniterBridgeService.php:197-225 | succeeds iff accepted and changes the store as `UpdateDeposit` |
| Service.LedgerBridge.GetDepositRequest | app/Services/CodeIgniterBridgeService.php:230-250 | returns the stored record or nothing and records what it saw |
| Service.LedgerBridge.GetSellRate | app/Services/CodeIgniterBridgeService.php:91-109 | returns the quoted rate or nothing |
| Service.LedgerBridge.CheckPendingWithdrawals | app/Services/CodeIgniterBridgeService.php:141-161 | returns the listed requests or none |
| Service.LedgerBridge.CreateWithdrawalRequest | app/Services/CodeIgniterBridgeService.php:256-281 | succeeds iff accepted, returning the fresh request id, and changes the store as `CreateWithdrawal` |
| Service.LedgerBridge.GetWithdrawalRequest | app/Services/CodeIgniterBridgeService.php:319-339 | returns the stored record or nothing and records what it saw |
| Service.LedgerBridge.UpdateWithdrawalRequest | app/Services/CodeIgniterBridgeService.php:286-314 | succeeds iff accepted and changes the store as `UpdateWithdrawal` |
| Service.LedgerBridge.CreateLedgerEntries | app/Services/CodeIgniterBridgeService.php:345-370 | succeeds iff accepted and changes the store as `PostLedger` |
| Service.LedgerBridge.GetUserPhone | app/Services/CodeIgniterBridgeService.php:375-395 | returns the phone field of the user info, if any |
| Service.LedgerBridge.SendSms | app/Services/CodeIgniterBridgeService.php:401-422 | appends the requested message to the outbox; whether the SMS endpoint accepted it is not recorded, as every caller ignores the answer |
| Service.DerivService.TransferToDerivAccount | app/Services/DerivWebSocketService.php:347-444 | returns the classified transfer result and records the attempt with what was sent |
| Service.DerivService.ProcessDeposit | app/Services/DerivWebSocketService.php:25-144 | performs the deposit steps through the bridge, returning and leaving exactly what `DepositSaga` describes |
| Service.DerivService.SettleDeposit | app/Services/DerivWebSocketService.php:61-143 | performs the steps after the checks, returning and leaving exactly what `Saga.SettleDeposit` describes |
| Service.DerivService.ProcessWithdrawal | app/Services/DerivWebSocketService.php:149-202 | performs the withdrawal steps, returning and leaving exactly what `WithdrawalSaga` describes |
| Service.DerivService.CompleteDeposit | app/Services/DerivWebSocketService.php:207-260 | performs the deposit completion, returning and leaving exactly what `CompleteDepositSaga` describes |
| Service.DerivService.CompleteWithdrawal | app/Services/DerivWebSocketService.php:265-342 | performs the withdrawal completion, returning and leaving exactly what `CompleteWithdrawalSaga` describes |
| SagaProperties.AppendKeepsOrdered | app/Services/DerivWebSocketService.php:74-121 | appending a call whose dependencies are the calls just before it keeps the log ordered |
| SagaProperties.DepositSagaKeepsOrdered | app/Services/DerivWebSocketService.php:74-121 | processDeposit transfers only right after an accepted create, updates only after a successful transfer, and posts a debit only after an accepted update of the same transaction |
| SagaProperties.WithdrawalSagaKeepsOrdered | app/Services/DerivWebSocketService.php:149-181 | processWithdrawal keeps the call-log invariant |
| SagaProperties.CompleteDepositSagaKeepsOrdered | app/Services/DerivWebSocketService.php:210-244 | completeDeposit transfers only right after reading a record whose status is not 1, and updates only after a successful transfer |
| SagaProperties.CompleteWithdrawalSagaKeepsOrdered | app/Services/DerivWebSocketService.php:268-321 | completeWithdrawal updates only after reading an unprocessed record and the sell rate, and posts a credit only after an accepted update |
| SagaProperties.SagasKeepLedgerPosted | app/Services/DerivWebSocketService.php:121-127 | every ledger entry has an accepted ledger call in the log |
| SagaProperties.SagasKeepIdsFresh | app/Services/CodeIgniterBridgeService.php:167-192 | no orchestration stores a request under an id already in use |
| SagaProperties.ApplyKeepsConsistent | app/Services/DerivWebSocketService.php:25-342 | each orchestration preserves the log invariant and ledger backing |
| SagaProperties.RunKeepsConsistent | app/Services/DerivWebSocketService.php:25-342 | any sequence of orchestrations, each run to its end, with any answers from the environment, preserves the invariant |
| SagaProperties.DebitEntriesAreBacked | app/Services/DerivWebSocketService.php:74-121 | each debit entry was posted right after an accepted update of its transaction, after a successful transfer, after a Pending record was established |
| SagaProperties.CreditEntriesAreBacked | app/Services/DerivWebSocketService.php:268-321 | each credit entry was posted right after an accepted withdrawal update, after the sell rate was read for an unprocessed request |
| DepositFacts.AmountUsd | app/Services/DerivWebSocketService.php:41-42 | the deposit's dollar amount is in cents and within half a cent of the shilling amount at the buy rate |
| DepositFacts.PendingDeposit | app/Services/DerivWebSocketService.php:63-72 | the created request has status 0, the dollar amount and the buy rate, and is not yet deposited |
| DepositFacts.DepositGuardsComeFirst | app/Services/DerivWebSocketService.php:28-53 | a user-data failure, an amount under $2.50, then an uncovered balance throw in that order, after only the user-data call |
| DepositFacts.DuplicateStopsDeposit | app/Services/DerivWebSocketService.php:55-59 | a reported duplicate throws "Transaction already processed." with no record and no transfer |
| DepositFacts.CreateFailureStopsTransfer | app/Services/DerivWebSocketService.php:74-77 | a failed create throws and no transfer is attempted |
| DepositFacts.FailedTransferLeavesPendingRecord | app/Services/DerivWebSocketService.php:74-84 | the Pending record is added under the fresh request id before the transfer; a failed transfer throws its message, with no update and no ledger entry |
| DepositFacts.UnreconciledDeposit | app/Services/DerivWebSocketService.php:93-102 | a failed update after a transfer throws a message ending in the transaction id, with no ledger entry and the record still Pending |
| DepositFacts.DepositLedgerEntry | app/Services/DerivWebSocketService.php:86-143 | success marks the record deposited and posts one debit with charge `(kes - bought_at) * amountUSD`; a failed ledger post still succeeds |
| DepositFacts.BalanceGateBound | app/Services/DerivWebSocketService.php:38-53 | an admitted shilling amount exceeds the balance by at most half a cent at the buy rate |
| DepositFacts.BalanceGateAdmitsOverdraft | app/Services/DerivWebSocketService.php:38-53 | 1000.40 shillings are admitted against a balance of 1000.30 at 100 |
| DepositFacts.HonestDuplicateCheckBlocksResubmission | app/Services/DerivWebSocketService.php:55-59 | with a duplicate check that answers whether a record carries the transaction id, resubmitting a created transaction is refused |
| DepositFacts.CompletedDepositTransfers | app/Services/DerivWebSocketService.php:74-84 | a deposit that goes through succeeds and makes its successful transfer as its fourth call |
| DepositFacts.DepositKeepsOtherRecords | app/Services/DerivWebSocketService.php:61-102 | processDeposit keeps every record stored under another id, with its transaction id |
| DepositFacts.FailOpenDuplicateCheckTransfersAgain | app/Services/CodeIgniterBridgeService.php:126-135 | with the check unavailable and the second create accepted, the same deposit transfers twice and leaves two records for the transaction |
| DepositFacts.CompleteDepositIdempotent | app/Services/DerivWebSocketService.php:215-221 | a record at status 1 is returned as read with no transfer or update |
| DepositFacts.CompleteDepositNotFound | app/Services/DerivWebSocketService.php:210-213 | a missing record throws "Deposit request not found" after only the read |
| DepositFacts.CompleteDepositPending | app/Services/DerivWebSocketService.php:223-259 | a Pending record is transferred; a failed transfer or update leaves the records as they are; an accepted update marks the record read deposited exactly when its transaction id is its request id's text; no ledger entry is posted |
| DepositFacts.CompleteDepositTwice | app/Services/DerivWebSocketService.php:207-260 | when the record's transaction id is its request id's text, a second completion after a successful one finds status 1 and does nothing more |
| DepositFacts.CompleteDepositMissTransfersAgain | app/Services/DerivWebSocketService.php:207-244 | when it is not, a successful completion leaves the record Pending and a second callback transfers again |
| DepositFacts.CompleteDepositMissKeepsRecord | app/Services/DerivWebSocketService.php:228-244 | when the record's transaction id is not its request id's text, a completion that went through returns DepositProcessed and leaves the record read unchanged |
| DepositFacts.CompleteDepositTransferCalled | app/Services/DerivWebSocketService.php:210-228 | on a record not yet deposited, the transfer is called right after the read, for the record's login id and amount |
| WithdrawalFacts.WithdrawalRejections | app/Services/DerivWebSocketService.php:151-166 | minimum, sell rate and pending requests refuse in that order, each before any request is created |
| WithdrawalFacts.UnlistedPendingRequestIsIgnored | app/Services/CodeIgniterBridgeService.php:152-161 | an unanswered pending check lets the withdrawal through |
| WithdrawalFacts.WithdrawalCreatesPendingRequest | app/Services/DerivWebSocketService.php:168-201 | the request is stored under the returned fresh id with status 0 and rate = sell `kes`; a failed create stores nothing |
| WithdrawalFacts.CompleteWithdrawalIdempotent | app/Services/DerivWebSocketService.php:273-279 | a record at status 1 is returned as read with no rate read, update or ledger call |
| WithdrawalFacts.CompleteWithdrawalWithoutRate | app/Services/DerivWebSocketService.php:286-289 | an empty sell rate raises on `bought_at` before any write |
| WithdrawalFacts.CompleteWithdrawalLedger | app/Services/DerivWebSocketService.php:287-326 | after an accepted update one credit entry with charge `(bought_at - kes) * amount` and `amount_kes = amount * rate` is posted; a refused update posts nothing |
| WithdrawalFacts.WithdrawalChargeIsMargin | app/Services/DerivWebSocketService.php:287-318 | the credit's charge plus the shillings paid out is the dollars' value at `bought_at`, plus the rate's move between request and completion; with no move the charge is exactly the margin |
| WithdrawalFacts.MissingTransactionNumberRaisesAfterPosting | app/Services/DerivWebSocketService.php:328-335 | a missing `transaction_number` raises only after the record is marked and the entry posted |
| WithdrawalFacts.CompleteWithdrawalTwice | app/Services/DerivWebSocketService.php:265-342 | a second completion after a successful one finds status 1 and does nothing more |
| DepositJob.DepositRowFor | app/Jobs/ProcessDerivDeposit.php:100-109 | the inserted request row has status 1 and `deposited = amount_usd` |
| DepositJob.LedgerRowFor | app/Jobs/ProcessDerivDeposit.php:112-122 | the inserted ledger row is a USD debit of `amount_usd` |
| DepositJob.SetStatus | app/Jobs/ProcessDerivDeposit.php:39 | the record gets the new status; the ledger-system tables are untouched |
| DepositJob.MarkFailed | app/Jobs/ProcessDerivDeposit.php:70-84 | the record is `failed` with the message, its other fields and every other record kept; the ledger-system tables are untouched and the status write is logged |
| DepositJob.Complete | app/Jobs/ProcessDerivDeposit.php:49-59 | the record is `completed` with `completed_at` and `deriv_response`, every other record kept, and each ledger-system table gains exactly its row for the deposit |
| DepositJob.HandleSpec | app/Jobs/ProcessDerivDeposit.php:29-93 | a missing deposit leaves the database unchanged; every run only extends the job's log |
| DepositJob.NotFoundIsNoOp | app/Jobs/ProcessDerivDeposit.php:31-36 | a missing deposit returns with no write and no transfer |
| DepositJob.ProcessingBeforeTransfer | app/Jobs/ProcessDerivDeposit.php:39-45 | `processing` is written just before the transfer is attempted |
| DepositJob.SuccessCompletesAndInsertsOnce | app/Jobs/ProcessDerivDeposit.php:47-62 | success completes the record with `completed_at` and the response, inserts exactly one row into each table, then sends the SMS |
| DepositJob.FailedTransferMarksFailed | app/Jobs/ProcessDerivDeposit.php:68-79 | a failed result marks the record failed with its message, changing no other record or field, inserts nothing, sends nothing and does not rethrow |
| DepositJob.ExceptionMarksFailedAndRethrows | app/Jobs/ProcessDerivDeposit.php:80-92 | an exception from the transfer or the transaction marks the record failed with its message, changing no other record or field, and is rethrown; with the transaction taken as all-or-nothing, nothing is inserted |
| DepositJob.SmsFailureAfterCommit | app/Jobs/ProcessDerivDeposit.php:49-62 | an SMS exception after the commit leaves the rows inserted and the record completed with its data, then marks it failed with the exception's message and rethrows |
| DepositJob.RehandlingTransfersAgain | app/Jobs/ProcessDerivDeposit.php:39-45 | handling a completed deposit again transfers again and inserts a second ledger row |
| DepositJob.AppendKeepsPaired | app/Jobs/ProcessDerivDeposit.php:95-123 | inserting the two rows together keeps the tables paired |
| DepositJob.HandleKeepsPaired | app/Jobs/ProcessDerivDeposit.php:49-59 | one run keeps the request table and the ledger table paired row by row |
| DepositJob.RunJobsKeepsPaired | app/Jobs/ProcessDerivDeposit.php:29-93 | with the transaction taken as all-or-nothing, any sequence of runs keeps the two tables paired |
| DepositJob.Backend.Find | app/Jobs/ProcessDerivDeposit.php:31 | returns the record exactly when it exists |
| DepositJob.Backend.Save | app/Jobs/ProcessDerivDeposit.php:39-84 | writes the record's new columns and nothing else, and logs the record's new status |
| DepositJob.Backend.InsertDepositRow | app/Jobs/ProcessDerivDeposit.php:100-109 | appends exactly the row to `deriv_deposit_request` |
| DepositJob.Backend.InsertLedgerRow | app/Jobs/ProcessDerivDeposit.php:112-122 | appends exactly the row to `customer_ledger` |
| DepositJob.Backend.Restore | app/Jobs/ProcessDerivDeposit.php:49-59 | the rollback puts every table back as saved |
| DepositJob.ProcessDerivDeposit.UpdateCodeIgniterDatabase | app/Jobs/ProcessDerivDeposit.php:95-123 | appends exactly one row to each table and nothing else |
| DepositJob.ProcessDerivDeposit.Handle | app/Jobs/ProcessDerivDeposit.php:29-93 | performs the job on the backend, returning and leaving exactly what `HandleSpec` describes |

## Left out

- The WebSocket transport, the SSL context, JSON encoding and decoding, and
  closing the connection in `transferToDerivAccount`. The decoded authorize
  reply, the decoded transfer reply, or a thrown exception are inputs.
- HTTP and the `Http` facade in `CodeIgniterBridgeService`. Each endpoint is
  an answer given as an argument. A write that is refused or unreachable is
  assumed not to have changed the ledger system.
- `generateTransactionId` and `generateTransactionNumber` read the clock and
  `rand`. Their values are oracle inputs, as is `now()`.
- Service.LedgerBridge.SendSms: `sendSMS` answers false when the SMS endpoint
  refuses, and every caller ignores that answer. The outbox therefore records
  the messages requested, not those delivered.
- Logging, the SMS wording, the operations phone number, `number_format`,
  and the success envelopes' `status` and `message` strings.
- Saga.Message: the insufficient-funds message omits the formatted balance,
  because `number_format` is not modelled.
- PHP floats are modelled as exact reals; binary rounding error is not
  modelled. The `(float) str_replace(',', '', …)` parsing of the balance
  totals is not modelled: the totals arrive as numbers.
- The buy rate's `kes` is assumed positive (`RatePositive`). The source
  divides by it without a check.
- PHP's loose `==` on the record status: a status is an integer here.
- The ledger system's endpoints are not part of this model. Their behaviour
  is assumed: `update_deposit_request` marks every record whose
  `transaction_id` equals the one sent, and `get_deposit_request` looks a
  record up by its request id. Request ids are numbers, sent as their
  decimal text.
- Requests are modelled as running one at a time: each orchestration runs
  to its end before the next starts. Concurrent requests whose steps
  interleave, such as two deposits racing between the duplicate check and
  the create, or two withdrawals racing between the pending check and the
  create, are not modelled.
- Saga.CompleteWithdrawalSaga: a record is either missing `transaction_number`
  or has one. A key present with a null value, which would give an SMS with
  an empty number instead of the undefined-key error, is not distinguished.
- The controller's input rules (`crNumber` length, minimum amount), the
  session check and the mapping to HTTP responses. The orchestrations' own
  minimum checks are modelled.
- `createWithdrawalRequest`'s `request_id` is modelled as the fresh id the
  store assigns. A reply without that field is not modelled.
- DepositJob: the local `$deposit->update` calls are assumed to succeed. An
  exception from the catch block's own update is not modelled.
- DepositJob: the `DB::transaction` block is treated as atomic. In the
  source, the rows are inserted through the `codeigniter` connection, which
  that transaction does not wrap: an exception in the `customer_ledger`
  insert leaves the `deriv_deposit_request` row behind, and the tables are
  then no longer paired. The pairing and the "inserts nothing" of a
  rolled-back run hold only under this assumption. The queue's `$tries` and `$timeout` are
  not modelled.
- The job's transfer call goes to `transferToAccount`, which is not part of
  this model. It is an oracle that returns a result or throws.
- `SmsService::sendDerivDepositSuccess` is not part of this model. It is an
  oracle that returns or throws; a successful send is recorded in the job's
  log.
