# PayQR payment pipeline: a verified model

The system turns an unreliable stream of bank callbacks about QR payments into exactly one accounting entry per
invoice. This project models that way in Dafny and proves what it keeps.

- **Transactions** (`Transactions`, `TransactionStore`, `Election`): the table of QR transactions, its writers, and the
  partial unique index with the fallback to `duplicate` that elects one paid row per invoice. `PaymentStore` is the
  object whose rows are replaced in place; each method is proved against a function of the old table.
- **Export queues** (`ExportQueue`, `QueueStore`, `QueueTheorems`, `IsoTime`): the Tiger and 1C tables as one leased
  queue with two upserts: FIFO claims, expiring leases, results, resets, and stored UTC texts that sort like instants.
- **Events** (`PaymentEvents`, `Amounts`): the events built from a paid row, both validations, and binary64 division
  with shortest printing between them.
- **Gateway** (`Gateway`, `GatewayRuns`, `GatewayInvariants`, `Winners`, `FirstPaid`, `Limits`, `PaymentService`): a
  state machine whose step is one store call. A fan-out that cancels siblings is a resumable process with a prefetched
  list, and a callback may be matched against a row read earlier, so anything may happen between those calls.
  `PaymentService` is the service object; an undisturbed call is one particular run of the machine. `Limits` holds the
  runs that show where the claims end.
- **Tiger worker** (`VoucherXml`, `VoucherEdit`, `AmountText`, `TigerCodes`, `Ledger`, `LedgerEdits`, `TigerWorker`,
  `Poller`): the edit of exported voucher documents, the ledger of vouchers, `ProcessInvoicePaid` with a failure
  possible at every call into Tiger and a false answer possible at every query, and the polling cycle.
- **Pipeline** (`Pipeline`, `OneCPipeline`): gateway, workers that are handed events at least once, answers that are
  lost, late or repeated, and the ledger, together; and gateway and 1C documents together. The end-to-end theorems are
  here.
- **Start-up deduplication** (`Deduplication`, `LegacyDatabase`, `LegacyRuns`): the rule, its two implementations, and
  runs of the gateway that begin with a legacy database.
- **1C import** (`PaymentTag`, `OneCImport`, `OneCLoop`): the search by comment, imports over whole runs, and the
  import loop; and the **append trial** (`AppendCheck`).

`dafny verify dfyconfig.toml` covers all files. Dafny 4.11 is expected.

Markers are constructors of a datatype, so hashing is injective. Clocks, parsed dates, provider answers, the listing of
a query where the order is free, and every failure are parameters. Amounts are integers in hundredths. Reads of the
ledger succeed, throw or are answered false; Post is atomic, but its outcome may be lost before or after saving.

## Where the code does less than one might expect

- "Every other row with a matching paid callback ends as duplicate or canceled" is false: `canceled` is not protected
  the way `paid` and `duplicate` are, so a later payer that a fan-out has cancelled takes any further status
  (`Limits.LaterPayerCanEndOpen`). `FirstPaid.LosersEnd` gives the exact condition.
- An explicit cancel can move `paid` to `canceled` and lets a running fan-out cancel the next winner
  (`Limits.ExplicitCancelEndangersTheNextWinner`). At most one entry per invoice holds even then
  (`Pipeline.ExactlyOnce`).
- A query whose OpenDirect answers false counts as "not found", so an entered invoice can be entered again and a second
  live voucher opened for its group (`TigerWorker.FalseAnswersEnterTwice`); `TigerWorker.LedgerStaysInOrderIff` and
  `Pipeline.EntriesAreConserved` say exactly when.
- A refresh replaces the raw payload, and with it the payment id a callback had written there
  (`PaymentEvents.RefreshDecidesThePaymentId`).
- The gateway upper-cases the currency as Python does, which takes the long s to S; the worker does not. The worker also
  refuses a payment dated at the zero instant (`PaymentEvents.AcceptedThenRefused`).
- The amounts 100 * 2^46 + 1 and 100 * 2^46 + 2 hundredths become the same binary64 (`Amounts.LargeAmountsCollide`);
  every amount up to 100 * 2^46 arrives intact.
- The 1C search is by LIKE: an id with a bracket finds its own document only under the condition of
  `PaymentTag.BracketedIdIsFoundIff`, and if it does not, redelivery creates another
  (`OneCImport.RedeliveryCreatesIffUnfindable`); an id that starts another id finds the other's document
  (`OneCImport.ShorterIdIsNeverImported`).
- The append check misjudges repeated expected markers (`AppendCheck.RepeatedExpectationIsMisjudged`); the trial itself
  never expects one twice.

## Model

| member | source | states |
|---|---|---|
| `Pipeline.ExactlyOnce` | TigerIntegrationWorker/LogoObjectsClient.cs:200-286 | from any gateway in shape, over every run of callbacks, refreshes, cancels, claims, expired leases, crashes around Post, lost, late or repeated answers, resets and other users of the ledger in which the looks for invoice and group voucher get an answer or an exception: the ledger stays in order, no invoice has more than one entry, and a Tiger row in success has exactly one |
| `Pipeline.EntriesAreConserved` | TigerIntegrationWorker/LogoObjectsClient.cs:200-286 | over every run at all, false answers of queries included: money has grown by the sum of amountTyiyn over the events posted and each invoice's entries by the number of events posted with that invoice id, trimmed; a success is entered, group vouchers are in order, and some invoice has two entries exactly if some move entered an entered invoice, some group two live vouchers exactly if some move opened a second one |
| `Pipeline.MoveKeepsOrderIff` | TigerIntegrationWorker/LogoObjectsClient.cs:1138-1190 | one move breaks one-entry-per-invoice or one-voucher-per-group exactly if it is a call that saves a line for an entered invoice, or opens a voucher for a group that has one |
| `Pipeline.EmptyCanStart` | src/payment_gateway/store.py:370-467 | an empty gateway and any ledger in order meet what these theorems start from |
| `Pipeline.PostedOnceForTheWinner` | src/payment_gateway/service.py:183-216 | on every run without an explicit cancel each invoice is posted for the transaction that is its paid one to the end, the 1C queue names the same transaction, and it is posted at most once unless a false answer made the worker enter it twice |
| `Pipeline.MoveKeepsSound` | TigerIntegrationWorker/PaymentGatewayPoller.cs:82-105 | every single move keeps: group vouchers in order and the books balanced, items handed out name the row's invoice, answers on the way and rows in success are true |
| `Pipeline.MoveKeepsSettled` | src/payment_gateway/service.py:183-216 | without an explicit cancel every move keeps all queued, delivered and posted events pointing at the paid transaction of their invoice |
| `Pipeline.SuccessNeedsAnAnswer` | src/payment_gateway/store.py:808-850 | no upsert, claim, failure, reset or rebuild makes a Tiger row a success: only an answer of success for that row does |
| `Pipeline.DeliverMove` | src/payment_gateway/store.py:761-799 | a claim hands the event of every row it takes to some worker, under the row's id, and takes nothing back |
| `Pipeline.AnswerMove` | TigerIntegrationWorker/PaymentGatewayPoller.cs:98-105 | an answer on its way may arrive at any time and any number of times, and is given to its row |
| `Pipeline.AnswerSays` | TigerIntegrationWorker/PaymentGatewayPoller.cs:98-105 | a report of success is an answer of success, any other one of error, with the voucher's reference in digits and the error text |
| `Pipeline.WorkBalances` | TigerIntegrationWorker/LogoObjectsClient.cs:200-286 | one call of the worker changes entries and money of the ledger by exactly what it adds to the record of postings |
| `Pipeline.ItemInvoice` | TigerIntegrationWorker/LogoObjectsClient.cs:1313-1317 | the trimmed invoice id the worker searches by is the key of the queue row |
| `OneCPipeline.OneDocumentPerInvoice` | integrations/1c/Общие/ОбщиеМодули/PayQR_ЗагрузкаОплат.bsl:24-136 | on every run of the gateway without an explicit cancel, with repeated deliveries, repeated imports and deletions, an invoice has at most one live 1C document, for its paid transaction, unless the payment id has a bracket |
| `OneCPipeline.MovesAre` | integrations/1c/Общие/ОбщиеМодули/PayQR_ЗагрузкаОплат.bsl:24-82 | queued events reach the imports, an import works on one that reached it as the import does, deletions mark documents, and the gateway goes on by itself |
| `OneCPipeline.MoveKeepsSettled` | src/payment_gateway/service.py:183-199 | every such move keeps all 1C events and documents pointing at the paid transaction of their invoice, and no findable second document |
| `GatewayInvariants.StepKeepsShape` | src/payment_gateway/service.py:183-216 | every step of the gateway, explicit cancels included, keeps one paid row per invoice, stripped invoice ids, unique queue keys, and rows and fan-outs that name a transaction having their invoice |
| `GatewayInvariants.RunKeepsShape` | src/payment_gateway/service.py:183-216 | and so does every run |
| `GatewayInvariants.EntriesName` | src/payment_gateway/service.py:308-350 | the event of a transaction with an invoice id names that transaction and that invoice, in both queues' keys |
| `GatewayInvariants.OneCStep` | src/payment_gateway/store.py:875-948 | after any step every 1C row has the entry it had or the one just written, and keys stay unique |
| `GatewayInvariants.TigerStep` | src/payment_gateway/store.py:646-741 | after any step every Tiger row has the entry it had or the one just written, and keys stay unique |
| `Winners.SlotStep` | src/payment_gateway/store.py:469-501 | a step takes the paid slot from a transaction exactly if it cancels that transaction |
| `Winners.FanSparesWinners` | src/payment_gateway/service.py:200-216 | whatever runs between the awaits of a fan-out, no automatic cancel hits a paid transaction |
| `Winners.WinnerIsStable` | src/payment_gateway/service.py:183-216 | on every run without an explicit cancel a paid transaction of an invoice stays paid |
| `Winners.QueuesAgree` | src/payment_gateway/service.py:192-199 | on every run without an explicit cancel each invoice has at most one 1C row, and its Tiger row names the same transaction, the paid one |
| `Winners.StepKeepsSettled` | src/payment_gateway/service.py:183-216 | from any start, every such step keeps each row naming the paid transaction of its invoice, or as it was at the start if it did not do so then |
| `FirstPaid.FirstPaidWins` | src/payment_gateway/store.py:370-467 | for any run of callbacks and automatic cancels with known amounts, each callback matched against its row as it was at any earlier point of the run, the paid transaction of an invoice is exactly the one whose matching paid callback came first, and without one there is none |
| `FirstPaid.FirstDeciderWins` | src/payment_gateway/store.py:286-467 | for any run without an explicit cancel, refreshes included, the paid transaction of an invoice is exactly the one whose refresh or matching callback first reported payment, and without one there is none |
| `FirstPaid.DecidingStep` | src/payment_gateway/store.py:286-467 | while nobody has paid, a step decides the invoice exactly if it is a matching paid callback or a refresh that reports payment |
| `FirstPaid.LaterPayerIsDuplicate` | src/payment_gateway/store.py:1445-1468 | a matching paid callback after the first puts its transaction aside as duplicate |
| `FirstPaid.LoserStep` | src/payment_gateway/store.py:438-467 | a transaction that lost is duplicate or canceled after a step exactly if the step closes it, or it was and the step is not a non-final callback on a canceled row |
| `FirstPaid.LosersEnd` | src/payment_gateway/store.py:419-501 | a loser ends as duplicate or canceled exactly if the last callback or automatic cancel that counted for it closed it |
| `FirstPaid.UnreopenedStaysClosed` | src/payment_gateway/store.py:438-467 | a loser stays duplicate or canceled to the end of the run if no non-final callback reaches it while it is canceled |
| `Limits.LaterPayerCanEndOpen` | src/payment_gateway/store.py:493-501 | without that condition the claim is false: a run from the empty gateway, in which a later payer is put aside, cancelled by the first payer's fan-out and then told any further status, leaves that payer open |
| `Limits.ExplicitCancelEndangersTheNextWinner` | src/payment_gateway/store.py:493-501 | winner stability needs its condition: a run from the empty gateway in which, after an explicit cancel of the winner, the running fan-out cancels the next one |
| `Limits.CancelledWinnerFreesTheSlot` | src/payment_gateway/service.py:112-126 | after an explicit cancel of the paid transaction of an invoice, in any state, the next matching paid callback of another one makes that one the paid transaction |
| `Limits.ListedIsReached` | src/payment_gateway/service.py:183-216 | the state in which both runs divide is reached from the empty gateway by callbacks and one fan-out, and keeps the invariants of runs without explicit cancels |
| `PaymentService.PaymentService.CancelOtherInvoiceTransactionsIfPaid` | src/payment_gateway/service.py:183-216 | an undisturbed call changes table and queues exactly as the steps of one fan-out of the state machine, over a listing of the open siblings in the table as it was if both entries could be made, and over nobody otherwise; with fewer than a hundred siblings every other transaction of the invoice that was inited, waiting, qr_scanned or unknown is canceled if its provider agrees, and no other row changes |
| `PaymentService.PaymentService.CancelAll` | src/payment_gateway/service.py:206-216 | the sibling loop is the sequence of cancel steps, refusals by the provider skipped |
| `PaymentService.PaymentService.Enqueue` | src/payment_gateway/service.py:192-199 | both queue upserts with the events of the paid row; an exception stops before the second |
| `PaymentService.PaymentService.SaveWebhook` | src/payment_gateway/service.py:172-181 | an undisturbed webhook is the callback step followed by the steps of one fan-out over a listing of the table after the callback |
| `PaymentService.PaymentService.GetTransaction` | src/payment_gateway/service.py:93-110 | an undisturbed refresh is the upsert step followed by the steps of one fan-out over a listing of the table after the upsert |
| `PaymentService.ListSiblings` | src/payment_gateway/store.py:593-610 | the list is the hundred most recently updated open siblings, newest first, or all if there are fewer; open is inited, waiting, qr_scanned or unknown |
| `Gateway.ListingSparesTheClosed` | src/payment_gateway/store.py:593-610 | no paid, duplicate or canceled transaction, no other invoice's and not the origin is listed for cancelling |
| `Gateway.SiblingIff` | src/payment_gateway/service.py:23 | what is cancelled automatically is every other transaction of the invoice in status inited, waiting, qr_scanned or unknown |
| `Gateway.ListingTakesTheNewest` | src/payment_gateway/store.py:593-610 | an open sibling is left out of a listing only if that has a hundred, none of them changed earlier |
| `Gateway.CanStartFanIff` | src/payment_gateway/service.py:183-190 | a fan-out starts exactly for a paid transaction with an invoice id that is not blank |
| `Gateway.EntriesAre` | src/payment_gateway/store.py:646-700 | a 1C row is keyed by the payment id, a Tiger row by the invoice id, both stripped, and both carry the payment and the event; neither is made if one of three ids is blank |
| `PaymentService.UndisturbedFanClosesAll` | src/payment_gateway/service.py:183-216 | with fewer than a hundred siblings and no refusal, an undisturbed fan-out leaves no open transaction of the invoice |
| `PaymentService.FanOutCancelsTheOpen` | src/payment_gateway/service.py:183-216 | a whole undisturbed fan-out with fewer than a hundred siblings cancels every other transaction of the invoice that was inited, waiting, qr_scanned or unknown, unless its provider refuses, which keeps no other from being cancelled, and touches no other row |
| `PaymentService.FanOutQueues` | src/payment_gateway/service.py:192-199 | and makes one upsert in each queue, with the events of the paid row |
| `PaymentService.NewInvoiceIsQueued` | src/payment_gateway/service.py:192-199 | a fan-out of an invoice new to the Tiger queue adds one row with its event: pending and untried if the event is valid, else failed with the complaint |
| `PaymentService.PaidCallbackIsQueued` | src/payment_gateway/service.py:172-216 | an undisturbed callback of payment that matches, for an invoice nobody has paid, makes its transaction the paid one and puts an invoice new to Tiger in line, with the event of the updated row |
| `PaymentService.QueuedInvoiceIsDelivered` | src/payment_gateway/store.py:761-799 | such a row reaches a worker within r / limit + 1 claims if answers are prompt and nobody resets |
| `PaymentService.PaymentService.ResetTigerInvoiceEvent` | src/payment_gateway/api.py:1323-1363 | the reset endpoint is a rebuild followed by a reset; it succeeds exactly if the rebuild did not stop and the row then waits to be reset, so an event that has become invalid is refreshed but not put back in line |
| `PaymentService.RebuildEffect` | src/payment_gateway/api.py:1323-1347 | the event of a row that is no success and whose payment is still paid is built anew from the row of the payment; otherwise nothing is rebuilt |
| `PaymentService.ResetEffects` | src/payment_gateway/api.py:1343-1350 | unless the rebuild fails or yields an invalid event the row is then put back in line |
| `Transactions.ConflictIffIndexBreaks` | src/payment_gateway/store.py:194-208 | a write is refused exactly if after it two rows would hold an invoice: looking for another holder is checking the whole partial unique index |
| `TransactionStore.PaymentStore.UpdateWithPaidFallback` | src/payment_gateway/store.py:1445-1468 | the second write happens exactly on an index conflict and never fails, so the re-raise is unreachable |
| `TransactionStore.PaymentStore.UpsertTransaction` | src/payment_gateway/store.py:286-368 | never fails, and leaves the table of the specification function |
| `TransactionStore.PaymentStore.SaveWebhook` | src/payment_gateway/store.py:370-410 | undisturbed, every callback is recorded, a repeated one too, and applied exactly if it matches the row it is applied to, which then has the reported status, payment time and payment id, and amount and creation time if it had none; in the state machine the match is against the row as an earlier transaction read it |
| `TransactionStore.PaymentStore.UpdateFromWebhook` | src/payment_gateway/store.py:419-467 | leaves the table of the specification function, the row with the reported status, payment time and payment id; missing rows, blank statuses and settled rows are left alone |
| `TransactionStore.PaymentStore.UpdateTransactionStatus` | src/payment_gateway/store.py:469-501 | sets the status with no guard for paid rows, inserting a bare row for an unknown id; never fails |
| `TransactionStore.PaymentStore.MergeTransactionMetadata` | src/payment_gateway/store.py:552-591 | adds metadata to an existing row's own and to the copy in its raw payload and returns the row; nothing else but the update time changes |
| `Election.WriteKeepsOnePaid` | src/payment_gateway/store.py:194-208 | every transaction writer preserves at most one paid row per non-empty invoice id |
| `Election.WriteFrame` | src/payment_gateway/store.py:286-501 | a write touches its own row only, no row disappears, and a non-empty invoice id never changes |
| `Election.SlotIsLostExactlyByItsCancel` | src/payment_gateway/store.py:493-501 | the paid row of an invoice loses its slot in a write exactly if the write is an explicit cancel of it |
| `Election.SlotIsTakenOnlyByPayment` | src/payment_gateway/store.py:350-361 | a slot is newly taken only by an upsert or matching callback of that row while nobody held it, and never by an upsert of a duplicate |
| `Election.PaidCallbackOutcome` | src/payment_gateway/store.py:438-467 | an applied paid callback ends as duplicate if another row holds the invoice and as paid otherwise |
| `Election.UninvoicedPaymentDemotion` | src/payment_gateway/store.py:350-361 | a paid row without invoice id becomes duplicate in a write exactly if an upsert gives it an invoice id that is taken |
| `Election.RedeliveryIsIdempotent` | src/payment_gateway/store.py:370-410 | delivering the same callback twice in a row changes nothing more |
| `Election.CallbackFillsGaps` | src/payment_gateway/store.py:441-467 | a callback, whatever row it was matched against, never changes a known amount or creation time, invoice, provider, metadata or other raw fields |
| `Election.CallbackTakesEffectIff` | src/payment_gateway/store.py:1470-1489 | a callback takes effect exactly if the row it read has its provider, or none, and its amount, or none unless it says paid without one, it has a status, and it does not take back a settled one |
| `Election.CallbackRecords` | src/payment_gateway/store.py:438-467 | one that does leaves its status (or duplicate for paid), its payment time, its payment id under provider_payment_id, and amount and creation time where there were none |
| `Election.RefreshNeverForgets` | src/payment_gateway/store.py:318-368 | an upsert never makes a known column unknown, only adds metadata, keeps duplicates duplicate, and replaces the raw payload by the new one |
| `Election.RefreshRecords` | src/payment_gateway/store.py:334-368 | after a refresh every column the snapshot fills has its value, but for a settled status and an invoice id already there; the others have the old one |
| `Election.RefreshRecordsMetadata` | src/payment_gateway/store.py:346-352 | metadata keys of the snapshot are taken over, the other keys kept, or nothing if metadata may not be updated |
| `Election.FirstSnapshotRecords` | src/payment_gateway/store.py:286-333 | the first snapshot of a transaction is its row; only a status of paid may give way to duplicate |
| `Election.CancelRecords` | src/payment_gateway/store.py:469-501 | a cancel sets the status to canceled and nothing else; an unknown id gets a bare row |
| `Election.MergeRecords` | src/payment_gateway/store.py:552-591 | merged keys are found in the metadata and in the payload's metadata, all other keys and columns are kept |
| `Election.HoldsIff` | src/payment_gateway/store.py:194-208 | a transaction holds an invoice exactly if its status is paid and its invoice id is that one and not empty |
| `PaymentEvents.RefreshDecidesThePaymentId` | src/payment_gateway/store.py:359-366 | so an event built after a refresh takes its providerPaymentId from the refresh, whatever a callback had written |
| `Election.MismatchedCallbackIsIgnored` | src/payment_gateway/store.py:1470-1489 | a callback that does not match the row it read (provider, amount, paid without any amount), or without status, or late and not reporting payment changes nothing |
| `Election.RefreshIsIdempotent` | src/payment_gateway/store.py:286-368 | reading the same snapshot twice is reading it once |
| `Transactions.IncomingInvoice` | src/payment_gateway/store.py:1491-1507 | an invoice id that enters the table is stripped and not empty |
| `Election.IncomingInvoiceIs` | src/payment_gateway/store.py:1491-1507 | it is the argument if that is filled, else the first filled one of metadata invoice_id, external_invoice_id, onec_invoice_id and invoice_uid |
| `Text.Clean` | src/payment_gateway/store.py:1502-1507 | cleaned text is not empty and cleaning it again changes nothing |
| `Text.StrippedIsTrimmedForDotNet` | TigerIntegrationWorker/LogoObjectsClient.cs:1313-1317 | text stripped by Python is unchanged by .NET trimming, so both sides key an invoice alike |
| `Text.TrimTakesOffSpace` | src/payment_gateway/store.py:1502-1507 | trimming takes off space at the two ends and nothing else |
| `Text.SpacesAre` | TigerIntegrationWorker/LogoObjectsClient.cs:1313-1317 | blank, tab, line feed, no-break and ideographic space count as space for both, the ASCII separators for Python only, visible ASCII for neither |
| `Text.CapitalsAre` | TigerIntegrationWorker/LogoObjectsClient.cs:1319-1324 | the letters from a to z, and no other character, are capitalised |
| `QueueTheorems.RunLedger` | src/payment_gateway/store.py:646-873 | over any run: no row disappears, keys and creation times stay, success is absorbing, attempt_count grows by the accepted success and error results, and the payment changes at most by a 1C upsert |
| `QueueTheorems.RunKeepsKeysUnique` | src/payment_gateway/store.py:646-741 | over any run no two rows get the same key |
| `QueueTheorems.RunKeepsConsistent` | src/payment_gateway/store.py:808-873 | over any run a row has an export time exactly if it is a success, a success has an attempt, and every row not waiting has an attempt time |
| `QueueTheorems.ClaimIsFifo` | src/payment_gateway/store.py:761-799 | a claim hands out the first min(limit, available) rows that are pending or whose lease expired, in (created_at, id) order |
| `QueueTheorems.ExclusiveLease` | src/payment_gateway/store.py:761-873 | two claims that hand out the same row are more than the lease apart on a non-decreasing clock, or an accepted failure and a reset lie between them |
| `QueueTheorems.LeaseHolds` | src/payment_gateway/store.py:808-873 | from a live lease on, a row is still leased, closed, failed and reset, or the lease has run out |
| `QueueTheorems.BoundedWait` | src/payment_gateway/store.py:761-799 | with r rows ahead, prompt answers and no reset, a waiting row is delivered within r / limit + 1 claims whatever arrives |
| `QueueTheorems.NobodyPushesIn` | src/payment_gateway/store.py:646-741 | no upsert or answer puts a row in front of a waiting one |
| `QueueTheorems.ClaimAdvances` | src/payment_gateway/store.py:784-796 | a claim that does not reach a waiting row shortens the line in front of it by the full limit |
| `QueueTheorems.UpsertMovesOnlyInvalid` | src/payment_gateway/store.py:713-741 | an upsert changes a status only from pending to error and only for an invalid event; the 1C upsert never does |
| `QueueTheorems.UpsertRefreshes` | src/payment_gateway/store.py:646-741 | an upsert refreshes the event of an unfinished row of the same payment and leaves a finished row and another payment's row alone |
| `QueueTheorems.NewTigerRow` | src/payment_gateway/store.py:672-700 | a new invoice gets one row at the end: pending, untried and without error if the event is valid, else failed now with the fault |
| `QueueTheorems.NewOneCRow` | src/payment_gateway/store.py:893-925 | a new payment gets one pending row at the end |
| `QueueTheorems.KnownTigerRow` | src/payment_gateway/store.py:713-741 | a finished row and another payment's row stay; any other takes the new event, and a fault is noted on a waiting or failed row and fails the waiting one |
| `QueueTheorems.KnownOneCRow` | src/payment_gateway/store.py:930-948 | a finished row stays, any other takes the new event |
| `QueueTheorems.DueIff` | src/payment_gateway/store.py:773-783 | a row is due exactly if it is pending, or processing with no attempt time or one before the limit |
| `QueueTheorems.ClaimWrites` | src/payment_gateway/store.py:773-796 | a claim marks what it hands out as processing now, returns what else is due to pending, and touches nothing else |
| `QueueTheorems.AnswerWrites` | src/payment_gateway/store.py:808-850 | an answer is taken exactly by a pending or processing row; final ones count, a success is dated and clears the error, reference and message are stored, a failure replaces the error |
| `QueueTheorems.ResetWrites` | src/payment_gateway/store.py:852-873 | a reset is taken exactly by a failed or skipped row and leaves it pending, with its attempts, without reference, error and export time |
| `QueueTheorems.ResetUndoesFailure` | src/payment_gateway/store.py:852-873 | failing and resetting a fresh row leaves it as it was, but for the counted attempt and the times |
| `ExportQueue.HeadIsFifo` | src/payment_gateway/store.py:784-789 | ORDER BY created_at, id LIMIT n selects min(n, available) rows, each before every row left out |
| `QueueStore.ReleaseThenLease` | src/payment_gateway/store.py:773-796 | releasing expired leases and then leasing the head of the line is the claim of the model |
| `QueueStore.ExportTable.UpsertTigerInvoiceExport` | src/payment_gateway/store.py:646-741 | leaves the queue of the specification function; for a new invoice that is one row more, pending or failed as the event is valid or not |
| `QueueStore.ExportTable.UpsertOneCPaymentExport` | src/payment_gateway/store.py:875-948 | leaves the queue of the specification function; for a new payment that is one pending row more |
| `QueueStore.ExportTable.SelectPending` | src/payment_gateway/store.py:784-789 | the selected ids are the head of the line, oldest first |
| `QueueStore.ExportTable.Claim` | src/payment_gateway/store.py:975-1013 | leaves the claimed queue and returns the rows handed out, oldest first |
| `QueueStore.ExportTable.UpdateResult` | src/payment_gateway/store.py:1015-1053 | an answer is accepted exactly by an open row, with the new row given by the specification function |
| `QueueStore.ExportTable.ResetExport` | src/payment_gateway/store.py:1055-1075 | a reset is accepted exactly by a failed or skipped row |
| `IsoTime.TextOrderIsChronological` | src/payment_gateway/store.py:1517-1519 | lexicographic order of the stored UTC texts is chronological order, with and without a microsecond part |
| `IsoTime.TextForm` | src/payment_gateway/store.py:1517-1519 | where the separators of such a text stand, its length with and without microseconds, and the +00:00 at its end |
| `IsoTime.LeaseTestOnText` | src/payment_gateway/store.py:773-783 | the lease test on texts is the lease test on instants |
| `IsoTime.LineOrderOnText` | src/payment_gateway/store.py:784-789 | the sort on texts is the sort on instants |
| `PaymentEvents.AcceptanceIffIntact` | TigerIntegrationWorker/LogoObjectsClient.cs:790-805 | an event accepted by the gateway is accepted by the worker exactly if its amount arrived as amountTyiyn / 100, it is not dated at the zero instant, and its currency has no long s |
| `PaymentEvents.GatewayAcceptanceRefinesWorker` | src/payment_gateway/service.py:283-331 | for a paid row of at most 100 * 2^46 hundredths the amount does arrive intact, so gateway acceptance implies worker acceptance but for those two exceptions |
| `PaymentEvents.AcceptedThenRefused` | TigerIntegrationWorker/LogoObjectsClient.cs:796-800 | both exceptions exist |
| `PaymentEvents.BuildEvent` | src/payment_gateway/service.py:240-269 | an event has a stripped non-empty invoice id and the id of its transaction |
| `PaymentEvents.EventFields` | src/payment_gateway/service.py:240-269 | account from tiger_bank_account_code, client from client_code or payer_code, currency from metadata, payload or KGS, invoice, number, provider and amount from the row |
| `PaymentEvents.EventPaymentId` | src/payment_gateway/service.py:323-329 | the provider's payment id is the first filled of four payload keys, in order, else the transaction's own |
| `PaymentEvents.EventTime` | src/payment_gateway/service.py:354-370 | the payment time is the first that can be read of the row's, the payload's, two of O!Dengi's and the row's last change |
| `PaymentEvents.EventIffInvoice` | src/payment_gateway/service.py:308-316 | an event is built unless neither row nor metadata gives an invoice id that is not blank |
| `PaymentEvents.CallbackReachesTheEvent` | src/payment_gateway/store.py:438-467 | payment id and time of a callback that takes effect are those of the event built next, and its amount if the row had none |
| `PaymentEvents.GatewayAcceptsIff` | src/payment_gateway/service.py:272-305 | the gateway accepts exactly the events with all texts filled, a payment time, a positive amount, and som |
| `PaymentEvents.WorkerAcceptsIff` | TigerIntegrationWorker/LogoObjectsClient.cs:790-805 | the worker accepts exactly those with all texts filled, a time other than zero, a positive amount that equals amountTyiyn / 100, and som |
| `Amounts.AmountSurvivesTheWire` | src/payment_gateway/service.py:329-331 | for 0 < n <= 100 * 2^46 the shortest decimal that reads back as the binary64 nearest n / 100 is exactly n / 100 (section 5.12.2 of IEEE 754-2019) |
| `Amounts.AmountsAreSeparated` | src/payment_gateway/service.py:329-331 | a number of hundredths up to 100 * 2^46 and any decimal of at most 15 digits, or 16 for amounts that need 16, share a nearest binary64 only if they are equal |
| `Amounts.LargeAmountsCollide` | src/payment_gateway/service.py:329-331 | the bound is sharp: the next two amounts, 100 * 2^46 + 1 and + 2 hundredths, become the same binary64 |
| `Deduplication.DeduplicationIsCorrect` | src/payment_gateway/store.py:1280-1357 | every invoice that had a paid row has exactly one afterwards: Tiger's winner, else the best 1C candidate, else the earliest by (time, id); all other rows are unchanged |
| `Deduplication.SurvivorIsTigers` | src/payment_gateway/store.py:1327-1331 | if the Tiger row of an invoice names one of its paid payments, that one survives |
| `Deduplication.SurvivorIsFurthestInOneC` | src/payment_gateway/store.py:1320-1336 | otherwise, of the paid payments known to 1C one survives whose export is a success, failing that in processing or pending, then in error, then any other, the least payment id among equals |
| `Deduplication.SurvivorIsEarliest` | src/payment_gateway/store.py:1337-1348 | otherwise the one with the earliest paid, else created, else updated time, the least id among equals |
| `Deduplication.WinnerExists` | src/payment_gateway/store.py:1328-1348 | every invoice with a paid row has a winner under the rule |
| `Deduplication.WinnerIsUnique` | src/payment_gateway/store.py:1328-1348 | and only one, whatever the order of the rows |
| `Deduplication.DeduplicationFixpoint` | src/payment_gateway/store.py:1280-1357 | a table that keeps the index invariant is unchanged |
| `Deduplication.DeduplicationIsIdempotent` | src/payment_gateway/store.py:1280-1357 | a second start-up changes nothing |
| `LegacyDatabase.Database.Deduplicate` | src/payment_gateway/store.py:1280-1357 | the store's loops, over rows in any order, compute the deduplicated table |
| `LegacyDatabase.Database.Upgrade` | migrations/versions/20260716_0008_harden_payment_and_export_queues.py:22-88 | the migration's loops compute the deduplicated table, so the unique index can be created |
| `LegacyDatabase.Database.ChooseWinner` | migrations/versions/20260716_0008_harden_payment_and_export_queues.py:61-79 | the row chosen is the winner under the rule |
| `LegacyDatabase.Database.MinByTime` | migrations/versions/20260716_0008_harden_payment_and_export_queues.py:70-79 | the row found is the earliest by (time, id) |
| `LegacyDatabase.Database.GroupPaid` | src/payment_gateway/store.py:1281-1296 | every invoice with paid rows is listed with exactly those rows |
| `LegacyDatabase.BothAgree` | migrations/versions/20260716_0008_harden_payment_and_export_queues.py:22-88 | both implementations leave the same table for every legacy database |
| `LegacyRuns.LegacyWinnersStay` | src/payment_gateway/store.py:1280-1357 | on every run that starts from a deduplicated legacy database and has no explicit cancel, the winner chosen by the deduplication stays the paid transaction of its invoice |
| `LegacyRuns.LegacyQueuesAgree` | src/payment_gateway/store.py:1280-1357 | on such a run every queue row names the paid transaction of its invoice, except for old rows left as they were: Tiger rows whose payment was not paid at the time and 1C rows whose payment did not win; of the others each invoice has at most one 1C row |
| `LegacyRuns.TigerReadAsStored` | src/payment_gateway/store.py:1298-1311 | the deduplication reads for each invoice the payment of its Tiger row |
| `LegacyRuns.OneCReadAsStored` | src/payment_gateway/store.py:1313-1326 | and for each payment the invoice and the status of its 1C row |
| `LegacyRuns.StatusTexts` | src/payment_gateway/store.py:1320 | under the five names the table stores |
| `VoucherXml.AppendRefinesInsert` | TigerIntegrationWorker/LogoObjectsClient.cs:1081-1136 | whatever a template with unique child names held, the appended line has no generated field, agrees with the built line on all 18 business fields and keeps every other field |
| `VoucherXml.AppendedLineIsBare` | TigerIntegrationWorker/LogoObjectsClient.cs:1095-1106 | the appended line has none of INTERNAL_REFERENCE, DATA_REFERENCE, SOURCEFREF, TRANNO, GUID, ORGLOGOID, PAYMENT_LIST, DEFNFLDSLIST and PREACCLINES, and is otherwise a copy of the template |
| `VoucherXml.RewrittenEffect` | TigerIntegrationWorker/LogoObjectsClient.cs:1084-1136 | removing names and setting fields has exactly that effect for any names and any distinct fields |
| `VoucherXml.SetElementEffect` | TigerIntegrationWorker/LogoObjectsClient.cs:1302-1311 | setting a child leaves every other child alone and keeps names unique |
| `VoucherXml.DateRoundTrip` | TigerIntegrationWorker/LogoObjectsClient.cs:1385-1386 | a calendar date is read back from its dd/MM/yyyy text |
| `VoucherXml.WrittenDate` | TigerIntegrationWorker/LogoObjectsClient.cs:1385-1386 | 16 July 2026 is written 16/07/2026 |
| `VoucherEdit.PreparedEffect` | TigerIntegrationWorker/LogoObjectsClient.cs:1064-1093 | the edit fails exactly without a voucher, transactions or template; otherwise it keeps all earlier lines, adds exactly one at the end, sets the header and leaves the other header fields |
| `VoucherEdit.EditKeepsTheRest` | TigerIntegrationWorker/LogoObjectsClient.cs:1064-1093 | around the voucher and around its lines the exported document stays as it was |
| `VoucherEdit.PrepareExportedXmlForAppend` | TigerIntegrationWorker/LogoObjectsClient.cs:1064-1093 | the step-by-step edit computes the edited document |
| `AmountText.AmountRoundTrip` | TigerIntegrationWorker/LogoObjectsClient.cs:1388-1389 | reading a written amount gives the amount |
| `AmountText.AmountForm` | TigerIntegrationWorker/LogoObjectsClient.cs:1388-1389 | a whole amount is written without a point, any other without a trailing zero |
| `VoucherXml.WrittenAmounts` | TigerIntegrationWorker/LogoObjectsClient.cs:1388-1389 | four amounts in full: 123.45, 123.4, 123 and 0.05 |
| `TigerCodes.CleanedCodeIsClean` | TigerIntegrationWorker/LogoObjectsClient.cs:1326-1331 | cleaning a cleaned code changes nothing |
| `TigerCodes.CleanedCodeKeepsTheWords` | TigerIntegrationWorker/LogoObjectsClient.cs:1326-1331 | a cleaned code has the words of the trimmed one, in order, with single blanks between them and no other separator |
| `TigerCodes.SameWordsSameCode` | TigerIntegrationWorker/LogoObjectsClient.cs:1326-1331 | two codes are cleaned alike exactly if they consist of the same words |
| `Ledger.FindInvoice` | TigerIntegrationWorker/LogoObjectsClient.cs:1163-1190 | when the query is answered, it finds a voucher exactly if the invoice has an entry, and then the last one with that entry |
| `Ledger.EnteredIff` | TigerIntegrationWorker/LogoObjectsClient.cs:1163-1190 | an invoice is entered exactly if a live voucher has its marker as header note or in the DESCRIPTION of a line |
| `Ledger.MoneyIs` | TigerIntegrationWorker/LogoObjectsClient.cs:1192-1234 | only live group vouchers hold money, each the sum of its lines |
| `Ledger.FindGroup` | TigerIntegrationWorker/LogoObjectsClient.cs:1138-1161 | the query finds the last live voucher of the group if there is one |
| `Ledger.GrownCounts` | TigerIntegrationWorker/LogoObjectsClient.cs:439-647 | adding a line to its group's voucher enters its invoice once more, no other invoice, and adds exactly its amount to the money |
| `Ledger.OpenedCounts` | TigerIntegrationWorker/LogoObjectsClient.cs:439-510 | so does a line in a new voucher |
| `Ledger.GrownKeepsVouchers` | TigerIntegrationWorker/LogoObjectsClient.cs:512-647 | one more line in the group's voucher keeps totals equal to their lines and lines in their own group, and the groups apart if and only if they were |
| `Ledger.OpenedKeepsVouchers` | TigerIntegrationWorker/LogoObjectsClient.cs:439-510 | so does a line in a new voucher, and two live vouchers of a group appear exactly if there was one already |
| `Ledger.LineAmountsReadBack` | TigerIntegrationWorker/LogoObjectsClient.cs:1108-1136 | DEBIT, AMOUNT and TC_AMOUNT of a line all read as the posted amount |
| `Ledger.LineTextsReadBack` | TigerIntegrationWorker/LogoObjectsClient.cs:1108-1136 | account, client, both dates and the marker of a line are the posting's |
| `Ledger.LineCodesReadBack` | TigerIntegrationWorker/LogoObjectsClient.cs:1108-1136 | the ten fixed codes of a line: TYPE, TRCODE, MODULENR, CURR_TRANS, TC_XRATE, BANK_PROC_TYPE, AFFECT_RISK, BN_CRDTYPE, DIVISION, COSTTYPE |
| `Ledger.LineAmountIs` | TigerIntegrationWorker/LogoObjectsClient.cs:1192-1234 | a line's amount is read from its AMOUNT |
| `Ledger.OthersDoNotMatter` | TigerIntegrationWorker/LogoObjectsClient.cs:1163-1190 | work of others on unmarked vouchers changes neither entries nor money |
| `LedgerEdits.InsertSaves` | TigerIntegrationWorker/LogoObjectsClient.cs:957-979 | the insert document holds one line, and saving it opens a voucher with that line |
| `LedgerEdits.AppendSaves` | TigerIntegrationWorker/LogoObjectsClient.cs:1064-1093 | the edited export holds one line more than the voucher, and saving it adds that line and the amount and changes nothing else |
| `LedgerEdits.InsertDocumentReads` | TigerIntegrationWorker/LogoObjectsClient.cs:957-979 | the insert document is marked INS and has date, type, total, group marker and divisions as fixed |
| `LedgerEdits.EditedHeaderReads` | TigerIntegrationWorker/LogoObjectsClient.cs:1064-1093 | the edited export is marked UPD and has the voucher's reference, type 3, the new total and the group marker |
| `LedgerEdits.SaveOwnLines` | TigerIntegrationWorker/LogoObjectsClient.cs:1085-1093 | saving exported lines with their references changes nothing, so one new line without reference is added |
| `LedgerEdits.NewLineIsRight` | TigerIntegrationWorker/LogoObjectsClient.cs:1082-1093 | the new line carries all 18 business fields whichever line it was copied from, and a reference of its own |
| `TigerWorker.LogoObjectsClient.ProcessInvoicePaid` | TigerIntegrationWorker/LogoObjectsClient.cs:200-286 | for any ledger with group vouchers in order and any failures and false answers: an invalid event changes nothing, a valid one adds its own line exactly if every look for it found nothing and every call up to Post went through, to the group's voucher if that was found and in a new one otherwise; if anything is saved it is one line with the event's amount, cleaned account and client, date and invoice, under the group marker of that date and account, and the money grows by amountTyiyn; a success names a live voucher with the entry, a posted event is reported failed only if the last look failed too, a dry run changes nothing, and without failures a valid event succeeds and is saved exactly if it had no entry |
| `TigerWorker.SavedLineBooksTheEvent` | TigerIntegrationWorker/LogoObjectsClient.cs:957-1136 | whatever goes wrong, a call that changes the ledger adds exactly one line, and that reads amountTyiyn, the cleaned bankAccount and clientCode, the date, the marker of the trimmed invoice id and the fixed codes; its voucher has the marker of the date and the upper-cased account and a total greater by the amount |
| `TigerWorker.PostsIff` | TigerIntegrationWorker/LogoObjectsClient.cs:200-286 | the calls that have to go through for a line to be saved, in a new voucher and in the group's, and which false answers stand in for an entry not found |
| `TigerWorker.CalmCallSaves` | TigerIntegrationWorker/LogoObjectsClient.cs:200-286 | without failures a call saves a line exactly if the invoice has no entry |
| `TigerWorker.LogoObjectsClient.CreateGroupedVoucher` | TigerIntegrationWorker/LogoObjectsClient.cs:439-510 | adds the posting's line in a new voucher exactly if import and Post go through; a failure result means nothing was posted |
| `TigerWorker.LogoObjectsClient.AppendToGroupedVoucher` | TigerIntegrationWorker/LogoObjectsClient.cs:512-647 | adds the posting's line to the group's voucher exactly if neither look finds the invoice and every call up to Post goes through; without failures the checks before and after Post all pass |
| `TigerWorker.LogoObjectsClient.ImportAndPost` | TigerIntegrationWorker/LogoObjectsClient.cs:578-606 | whatever was read before, the line is added exactly if the import and Post go through, the document holds one line more than was read and the voucher still has that count and sum; otherwise nothing is posted |
| `TigerWorker.LogoObjectsClient.VerifyAppend` | TigerIntegrationWorker/LogoObjectsClient.cs:608-638 | success means the voucher has the entry with its amount, one line more and a sum greater by the amount |
| `TigerWorker.LogoObjectsClient.VerifyLinePersisted` | TigerIntegrationWorker/LogoObjectsClient.cs:1236-1293 | found means that the voucher holds the invoice's entry |
| `TigerWorker.LogoObjectsClient.ReadVoucherSummary` | TigerIntegrationWorker/LogoObjectsClient.cs:1192-1234 | in a ledger in order, a summary that shows a group's marker is that of the one live voucher of the group, which has lines, and the sum of its lines is the total in its header |
| `TigerWorker.LedgerStaysInOrderIff` | TigerIntegrationWorker/LogoObjectsClient.cs:200-286 | for any call in any weather: one entry per invoice is lost exactly if a line is saved for an entered invoice, one live voucher per group exactly if a voucher is opened for a group that has one, and group vouchers stay in order in any case |
| `TigerWorker.AgainNeedsFalseAnswers` | TigerIntegrationWorker/LogoObjectsClient.cs:1138-1190 | the first takes a false answer to the first look, and all three looks if the line goes to the group's voucher; the second a false answer to the look for the voucher |
| `TigerWorker.FalseAnswersEnterTwice` | TigerIntegrationWorker/LogoObjectsClient.cs:1138-1190 | it does happen: any posting repeated with such false answers and no other failure makes two entries, in two live vouchers of the group or in one |
| `TigerWorker.EffectCounts` | TigerIntegrationWorker/LogoObjectsClient.cs:200-286 | a call that saves a line enters its own invoice once more, no other, and adds its amount; any other call changes nothing |
| `TigerWorker.PostedLineIsFound` | TigerIntegrationWorker/LogoObjectsClient.cs:1236-1293 | after an append the verification query shows the posted amount under the marker, and count and sum have grown by the line |
| `Poller.PaymentGatewayPoller.Cycle` | TigerIntegrationWorker/PaymentGatewayPoller.cs:82-105 | the items have their turns in order until they are used up or a report fails, each turn starting from the ledger the last one left; skipped items leave no trace, a dry run is not acknowledged and any other call is reported |
| `Poller.ReportsAreTrue` | TigerIntegrationWorker/PaymentGatewayPoller.cs:82-105 | when a cycle is over every success it reported is still true of the ledger, and a dry run has reported nothing and left the ledger alone |
| `Poller.SmoothCycleAnswersAll` | TigerIntegrationWorker/PaymentGatewayPoller.cs:82-105 | without failures every item is answered, with success exactly for the acceptable events |
| `Poller.ProcessingItemsAreHandled` | TigerIntegrationWorker/PaymentGatewayPoller.cs:84-88 | in every cycle an item with a payload and status processing is handed to the worker, in any spelling, and one without payload or with another status is not |
| `Poller.EarlierReportsArrived` | TigerIntegrationWorker/PaymentGatewayPoller.cs:82-105 | no report but the last of a cycle has failed |
| `Poller.CycleStopsAtFailure` | TigerIntegrationWorker/PaymentGatewayPoller.cs:82-105 | and if items are left, the last one has |
| `Poller.CycleIsARun` | TigerIntegrationWorker/PaymentGatewayPoller.cs:82-105 | from any state of the pipeline that has the events in hand, a cycle is a run of its Work moves, and its reports are the answers that are then on their way |
| `AppendCheck.SafeMeansAllAndOnly` | TigerIntegrationWorker/LogoObjectsClient.cs:754-788 | for distinct expected markers a verdict of safe on one voucher holds exactly if its markers are a permutation of the expected ones and its sum is right |
| `AppendCheck.EachOnceIffPermutation` | TigerIntegrationWorker/LogoObjectsClient.cs:765-771 | same count and every expected marker once is exactly being a permutation |
| `AppendCheck.RepeatedExpectationIsMisjudged` | TigerIntegrationWorker/LogoObjectsClient.cs:765-771 | for any expected markers with a repetition every permutation is refused, and a voucher with any unexpected marker in place of the repetitions is accepted |
| `AppendCheck.ListVoucherSnapshots` | TigerIntegrationWorker/LogoObjectsClient.cs:889-924 | one snapshot for each voucher that has a row, and its line count is the number of its markers |
| `AppendCheck.SnapshotGrows` | TigerIntegrationWorker/LogoObjectsClient.cs:889-924 | each row adds its line's amount and marker to its own voucher's snapshot and to no other |
| `OneCLoop.PaymentImport.ImportSuccessfulPayments` | integrations/1c/Общие/ОбщиеМодули/PayQR_ЗагрузкаОплат.bsl:24-82 | terminates if the queue offers finitely many ids; handles exactly the first offer of each id, in order, until a batch is missing, empty or brings no new id, or a report breaks off; the base is the run of these imports, every logged result is a success exactly when its import succeeds at that point, and each success has a live document that serves the payment |
| `OneCLoop.EndMeans` | integrations/1c/Общие/ОбщиеМодули/PayQR_ЗагрузкаОплат.bsl:34-75 | unless sending broke off: at the end the next batch is missing or empty or the last one brought no new id, no earlier batch was empty, and exactly the ids offered are in the log |
| `OneCLoop.PaymentImport.ProcessPaymentEvent` | integrations/1c/Общие/ОбщиеМодули/PayQR_ЗагрузкаОплат.bsl:84-136 | creates a document exactly if none is found and nothing is wrong, and succeeds exactly if one was found or created |
| `OneCLoop.LoggedSuccessIffOwnDocument` | integrations/1c/Общие/ОбщиеМодули/PayQR_ЗагрузкаОплат.bsl:24-136 | after any earlier imports and deletions, for plain ids none of which continues another, every result in the log is a success exactly if the payment had its own live document right after its import |
| `OneCImport.AtMostOneDocumentEver` | integrations/1c/Общие/ОбщиеМодули/PayQR_ЗагрузкаОплат.bsl:197-223 | over every run of imports, repeated as often as acknowledgements are lost, and deletions, a payment whose id has no bracket has at most one live document |
| `OneCImport.RunKeepsOnePerPayment` | integrations/1c/Общие/ОбщиеМодули/PayQR_ЗагрузкаОплат.bsl:101-104 | over every such run two live documents of one payment exist only if its id does not find its own document |
| `OneCImport.ImportCreatesIff` | integrations/1c/Общие/ОбщиеМодули/PayQR_ЗагрузкаОплат.bsl:84-136 | an import creates one document, with the payment's comment and date, exactly if the event has a payload with both ids, no live document's comment matches, and 1C finds the sale, has no complaint, knows the account and writes it |
| `OneCImport.SuccessIffOwnDocument` | integrations/1c/Общие/ОбщиеМодули/PayQR_ЗагрузкаОплат.bsl:84-136 | after every such run, for plain ids none of which continues another, an import succeeds exactly if the payment has its own live document afterwards |
| `OneCImport.RedeliveryCreatesIffUnfindable` | integrations/1c/Общие/ОбщиеМодули/PayQR_ЗагрузкаОплат.bsl:101-104 | delivering a payment again creates a second document exactly if its id does not match its own comment |
| `OneCImport.FoundIsOwnIffNoLongerId` | integrations/1c/Общие/ОбщиеМодули/PayQR_ЗагрузкаОплат.bsl:197-223 | every document found for a plain id is the payment's own exactly if no live document has a longer id starting with it |
| `OneCImport.SuccessMeansOwnDocument` | integrations/1c/Общие/ОбщиеМодули/PayQR_ЗагрузкаОплат.bsl:84-136 | with plain ids none of which continues another, success means that the payment's own document exists |
| `OneCImport.ShorterIdIsNeverImported` | integrations/1c/Общие/ОбщиеМодули/PayQR_ЗагрузкаОплат.bsl:101-104 | otherwise, in any base, as long as a live document of a longer id exists, the shorter id is reported as a success and gets no document |
| `PaymentTag.OwnDocumentIsFound` | integrations/1c/Общие/ОбщиеМодули/PayQR_ЗагрузкаОплат.bsl:579-607 | every document is found by its own payment id if that has no bracket |
| `PaymentTag.CommentSays` | integrations/1c/Общие/ОбщиеМодули/PayQR_ЗагрузкаОплат.bsl:579-607 | the comment in full: the tag with the payment id, and a line each for invoiceId, invoiceNumber and paymentCode if they are filled |
| `PaymentTag.BracketedIdIsFoundIff` | integrations/1c/Общие/ОбщиеМодули/PayQR_ЗагрузкаОплат.bsl:211-214 | a payment whose id has a bracket finds its own document exactly if the class that the bracket opens is closed, accepts the bracket itself, and the rest of the pattern matches the rest of the comment |
| `PaymentTag.BracketedIdIsNotFound` | integrations/1c/Общие/ОбщиеМодули/PayQR_ЗагрузкаОплат.bsl:211-214 | so it never finds it if that class does not accept an opening bracket, or is never closed |
| `PaymentTag.SearchStartsAtTheTag` | integrations/1c/Общие/ОбщиеМодули/PayQR_ЗагрузкаОплат.bsl:197-223 | the search for any id compares its pattern with what follows the tag of the comment, and nothing else |
| `PaymentTag.FoundIffPrefix` | integrations/1c/Общие/ОбщиеМодули/PayQR_ЗагрузкаОплат.bsl:197-223 | for plain fields without tags the search matches exactly the comments whose payment id starts with the id |
| `PaymentTag.LikeIsContains` | integrations/1c/Общие/ОбщиеМодули/PayQR_ЗагрузкаОплат.bsl:211-214 | without wildcards LIKE with % on both sides is a substring search |
| `PaymentTag.LikeBasics` | integrations/1c/Общие/ОбщиеМодули/PayQR_ЗагрузкаОплат.bsl:211-214 | % stands for any run, _ for any one character, a class for one of its members or, with ^, for none; any other character for itself |

## Left out

- Amounts.AmountSurvivesTheWire: stated for 0 < n <= 100 * 2^46 hundredths; it is false of at least one of the next two
  amounts, as `Amounts.LargeAmountsCollide` shows.
- VoucherEdit.PrepareExportedXmlForAppend: edits a value and returns it, where the code changes a shared XDocument tree;
  aliasing of elements, whitespace nodes and byte decoding are not modelled.
- Ledger.FindInvoice: what an answered query finds; a false OpenDirect is a branch of `TigerWorker`. A cancelled single
  line inside a live voucher is not modelled.
- Pipeline.ExactlyOnce: supposes that the looks for invoice and group voucher are not answered by a false OpenDirect,
  because with one it is false; `Pipeline.EntriesAreConserved` covers all runs and gives the exact condition.
- TigerWorker.LogoObjectsClient.ProcessInvoicePaid: calls are serialized, as by the lock of one process; two worker
  processes on the same ledger at the same time are not modelled. The document date is a parameter, and the exception of
  a misused date override is left out.
- TransactionStore.PaymentStore.SaveWebhook: the method is the undisturbed call; a callback that is matched against a row
  read earlier is the step `Hook` of the state machine, with the row read as a parameter. The signature is not modelled.
- LegacyRuns.LegacyQueuesAgree: supposes stripped invoice ids, unique queue keys and payment ids without surrounding
  blanks in the legacy database.
- PaymentService.PaymentService.CancelOtherInvoiceTransactionsIfPaid: the contract is about an undisturbed call; calls
  disturbed by others are runs of the state machine in `Gateway`.
- PaymentService.PaymentService.ResetTigerInvoiceEvent: the endpoint's two reads and its upsert are one step of the
  machine; the reset is another.
- Text.Upper: upper-casing is ASCII only (and the long s where Python matters); other alphabets are left as they are.
- PaymentTag.FoundIffPrefix: LIKE compares case-sensitively, and ranges inside brackets are not modelled.
- Metadata and raw payloads are maps from text to text, with the payload's metadata and odengi_payload as further maps:
  numbers, lists and other nested JSON are not modelled, and columns that are only copied are one map.
- The bank code, client name, payment method and description of an event, which neither validation nor worker reads.
- Stored error messages are kept as given; their clean-up is not modelled.
- HTTP, authentication, integration keys, signatures, provider clients, retries and settings.
- QR rendering, print forms, admin pages, print-QR configuration, list endpoints and pagination.
- Reuse of an existing invoice QR, and everything that only reads.
- COM login and release, temporary files, SQL text and escaping.
- Column-adding migrations and the creation of the other indexes.
- The two rejected append strategies; the append trial is modelled only in its verdict.
- The 1C document beyond its comment, date and deletion mark; what 1C looks up for it are parameters.
- Liveness without acknowledgements: expiring leases and dry runs can starve newer rows, so only the conditional bounded
  wait is stated.
