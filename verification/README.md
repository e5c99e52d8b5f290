# Ancra: a verified model of the money core

Ancra is a multi-tenant virtual-account service: it credits customers for inbound transfers reported by a payment
provider's webhooks, pays out from customer accounts, backfills credits that no webhook announced, and delivers
outbound webhooks. Balances are never stored; they are sums over an append-only ledger. This project models that core in
Dafny and proves properties of all its runs: overlapping requests, crashes between any two database calls, failing
inserts, failing commits, repeated and reordered events.

Check everything with `dafny verify dfyconfig.toml`.

## How it is built

The objects that the service updates in place are classes with contracts that give their whole new state
(`Store.Database`, `Posting.LedgerService`, `Webhook.WebhookHandler`, `Backfill.ReconciliationService`,
`Backfill.SweepWorker`, `Transfers.TransactionHandler`, `Statement.AccountService`, `Outbound.OutboundWorker`,
`KeyCache.APIKeyAuth`, `ClientFactory.Factory`, `Identity.CustomerStore`, `Kyc.CustomerStore`,
`Provisioning.AccountService`). Each contract names a function on the tables; `Outcomes` and the contracts themselves say
what these functions do, case by case, and the theorems are about their runs.

| module | what it holds |
|---|---|
| Sums | weighted sums over sequences and sets |
| Kobo | naira to kobo, and the float64 error that the rounding absorbs |
| Ledger, Store | rows, balances, the legs of each posting; tables, carried transaction, commit and rollback |
| Posting, Webhook, Backfill, Transfers | the services and handlers, one request at a time |
| Outcomes | what each money request comes to, for every input and every failing call, in terms of the rows before and after |
| BackfillTheorems, Ingest, Sweep | what a backfill run posts; the two ingest paths together; coverage of the periodic sweep |
| MoneyFlow | all of the above as one transition system with one step per database or provider call |
| Books | conservation, zero-sum and the reconciliation delta in every reachable state |
| Counterfactual | the run without one of its transfers, and what the books are then |
| Overdraft | how far overlapping transfers overdraw, and that the bound is reached |
| Protocol | the webhook protocol under overlap and crashes; the sequential code as schedules of the steps |
| Overlap | the exact discipline under which webhooks and backfills together post an id once |
| Closure | which webhook credits reach closed accounts |
| Statement | pages of running balances, with and without equal timestamps |
| Outbound, Retry, Fairness | the delivery worker, its retry state machine with lost updates, its fairness bound |
| KeyCache, ClientFactory | two caches against the stores they speed up, serially and interleaved |
| Identity, Renames | name history, and renames that overlap |
| Kyc, TierListing | tier history under row locks, and the order in which it is listed |
| Provisioning, Slug | one account per customer, slugs |

Faults are parameters: which insert fails, whether a commit succeeds, what the provider answers, when the clock is read.
Every sequence of labels of a transition system is a run; a label whose guard fails leaves the state alone. Ids come from
a counter, so fresh UUIDs are distinct; customer, pool and suspense accounts are different constructors, so their ids
never collide. Amounts in naira are reals rounded exactly, except in `Kobo`, which treats the float64 error; kobo and
times are unbounded integers; the currency is always NGN and is dropped. `MoneyFlow` also records what the environment
saw (`receipts`, and whether the provider `paid` despite answering with an error): the services never read these records.

## Where the code does less than its documentation says

Here and in the table, paths are those of the service's repository; "the service's README" is its top-level README.md.

- Line 7 of the service's README promises that customer balances, fees and suspense add up to the wallet, and a run with
  status ok is taken as proof. A credit debits the pool and the run subtracts the pool balance from the wallet, so the
  recorded delta is wallet plus customer balances minus backfilled money (`Books.ReconciliationDelta`). Without
  backfills, a wallet that equals the customers' money is reported ok only when both are empty. What does hold is
  `Books.Conservation`.
- Line 66 of the service's README says that every naira is double-posted. Suspense and backfill post one leg, and the
  ledger sums to exactly their total (`Books.ZeroSum`).
- internal/api/handlers/transactions.go:111 says that the debit validates funds atomically. The check and the insert are
  two calls: k overlapping transfers of at most M kobo can leave an account at -(k-1)*M and no lower
  (`Overdraft.OverdraftBound`, `Overdraft.OverdraftIsReached`). A run is safe if every check that passes leaves room for
  the amounts already checked (`Overdraft.PrudentNeverOverdraws`), and any check that does not can be followed by an
  overdraft (`Overdraft.ImprudentCheckOverdraws`).
- Line 110 of the service's README claims exactly-once processing. The mark comes before the credit and outside its
  transaction, so a credit whose transaction fails after the mark is not made good: no webhook or later backfill posts
  it (`Ingest.FailedCreditIsLost`). A marked id is final if and only if no handler still holds it and no backfill job
  had selected it before the mark (`Overlap.MarkedIsFinalIff`). Backfill checks, inserts and marks in three calls. A run
  posts an id at most once if, as long as the id is unmarked, no payment webhook marks it and no backfill selects it
  while a backfill job is live on it, and no job that has posted it loses its mark or stops before it
  (`Overlap.CarefulPostsOnce`); each step that breaks this can be continued to a second posting
  (`Overlap.CarelessPostsTwice`). For whole calls one after the other, lost marks are the only cause
  (`BackfillTheorems.PostedOnceIff`, `Ingest.ArrivesOnceIff`).
- Line 70 of the service's README promises correct running balances on all pages. With equal timestamps at a page
  boundary every balance of the page is off by one constant (`Statement.StatementIsExact`), which is zero exactly when
  the rows that the tie group of its first row leaves to earlier pages sum to zero (`Statement.PageExactIff`).
- Line 73 of the service's README sends payments to closed accounts to suspense. The webhook reads the status at its
  lookup and not again at the commit, so it credits a closed account exactly when the close comes between the two
  (`Closure.CreditsClosedIff`). Backfill never reads the status (`Ingest.BackfillIgnoresClosure`).
- Line 64 of the service's README calls account creation idempotent. It is while the account is active; after a close it
  fails for ever, because the account reference is the customer id and is unique (`Provisioning.ClosedIsFinal`).
- internal/api/handlers/apikeys.go:142 says that an evicted key stops working right away. It does for ever if and only
  if no lookup of the key is under way at the eviction (`KeyCache.EvictionHoldsIff`), that is, if every lookup that
  overlapped the revocation has been stored by then (`KeyCache.RevocationHoldsIff`); one that has not puts the key back
  for a bounded time (`KeyCache.BoundedStaleness`). The client cache behaves alike
  (`ClientFactory.InvalidationHoldsIff`).
- db/migrations/000001_initial.up.sql:30 takes (customer_id, NULL) to be unique. PostgreSQL does not compare NULLs, so
  two open name versions are possible: by creating a customer with a name and then an account, or by two overlapping
  renames (`Renames.OverlappingRenamesOpenTwo`). The number of open versions in any run is counted exactly
  (`Renames.OpenVersionsCounted`), and serial renames preserve it.
- internal/store/postgres/customers.go:162 lists the tier history newest first. The times are read before the row lock
  is taken, so the listing follows the upgrades if and only if their times ascend (`TierListing.ListedInOrderIff`): it
  does for upgrades that do not overlap, and does not after an overtaking one (`TierListing.OvertakingBreaksListing`).
- internal/worker/outbound.go:105 ignores a failed row update. Posts are then no longer limited to five: a delivery's
  posts are its attempts plus its lost updates (`Retry.PostsCounted`).

## Model

| member | source | states |
|---|---|---|
| `Kobo.Round` | internal/api/handlers/webhook.go:198-200 | the result is a nearest integer, and a tie goes away from zero |
| `Kobo.NairaToKobo` | internal/api/handlers/webhook.go:198-200 | the nearest number of kobo to an amount in naira, halves away from zero |
| `Kobo.RoundTrip` | internal/api/handlers/transactions.go:161-168 | dividing by 100 and multiplying back in float64, each with relative error at most 2^-53, gives the same kobo for every amount below 2^51 |
| `Kobo.RoundTripLimit` | internal/domain/reconciliation/service.go:246-248 | at 2^51 kobo there are two roundings within the relative error after which one kobo is gained, so the error bound alone gives no more |
| `Kobo.RoundTripToNearest` | internal/api/handlers/webhook.go:198-200 | from 2^51 up to 100*2^45 kobo rounding to the nearest double still gives back the same amount, exactly |
| `Kobo.NearestGainsOneKobo` | internal/api/handlers/webhook.go:198-200 | at 100*2^45+2 kobo the nearest doubles themselves gain one kobo |
| `Ledger.TotalIsSumOfBalances` | internal/store/postgres/ledger.go:62-75 | a total over a set of accounts is the sum of what GetBalance answers for each of them |
| `Store.Database.Finish` | internal/store/postgres/db.go:50-64 | a transaction's rows become visible all together when body and commit succeed, and none of them otherwise |
| `Store.Database.InsertRows` | internal/store/postgres/ledger.go:48-59 | succeeds exactly when no insert fails and all amounts are positive, and then has appended all rows in order |
| `Store.Database.InsertEntries` | internal/store/postgres/ledger.go:23-41 | all rows or none; inside a carried transaction nothing is committed, outside it the call commits alone |
| `Store.Database.MarkProcessed` | internal/store/postgres/events.go:24-39 | first caller wins, every later one learns of the duplicate, and a carried transaction is bypassed |
| `Store.Database.CreateDelivery` | internal/store/postgres/reconciliation.go:128-142 | joins the carried transaction and stages exactly one delivery |
| `Posting.LedgerService.PostCredit` | internal/domain/ledger/service.go:41-92 | which error it returns, and that a successful credit appends exactly its two legs to the rows it joins |
| `Posting.LedgerService.PostDebit` | internal/domain/ledger/service.go:98-153 | refused for funds exactly when the committed balance is short; otherwise both legs or nothing |
| `Posting.LedgerService.PostSuspense` | internal/domain/ledger/service.go:170-203 | one leg on the suspense account of the org, or nothing |
| `Posting.CreditShifts` | internal/domain/ledger/service.go:55-78 | a credit raises the customer and lowers the pool by the amount in every set of accounts, and moves nothing else |
| `Posting.DebitShifts` | internal/domain/ledger/service.go:116-139 | a debit lowers the customer and raises the pool by the amount, and moves nothing else |
| `Webhook.WebhookHandler.HandleNomba` | internal/api/handlers/webhook.go:95-121 | the reply and the committed rows are those of the functions that the next rows are about, for every event and every combination of failing calls |
| `Outcomes.NoPayment` | internal/api/handlers/webhook.go:95-120 | a failing mark and a repeated id change nothing and are answered as error and duplicate; other event types are only marked and ignored |
| `Outcomes.PaymentToSuspense` | internal/api/handlers/webhook.go:128-153 | an unknown number or failed lookup credits the global suspense account, a closed account the suspense account of its own org, with exactly one row and no delivery; exactly when this is posted; answered as suspense either way |
| `Outcomes.PaymentToCustomer` | internal/api/handlers/webhook.go:155-195 | an active account is credited against its org's pool by exactly two rows, with exactly one pending delivery for that org, if and only if nothing fails; otherwise only the mark remains and the answer is a failure |
| `Webhook.WebhookHandler.HandleCredit` | internal/api/handlers/webhook.go:123-196 | routing to global suspense, org suspense or customer; credit and delivery commit together or not at all; a failed suspense posting is still answered as suspense |
| `Backfill.ReconciliationService.BackfillMissedCredits` | internal/domain/reconciliation/service.go:126-223 | the rows are those of the loop over the first page of the window, for any list and any failing calls, and the counter is the number of entries added |
| `Outcomes.PullOutcome` | internal/domain/reconciliation/service.go:145-208 | one listed transaction: posted if and only if it is a new successful credit of positive kobo whose alias number, or recipient number when the alias is empty, is known and nothing fails; one row on that account, dated as listed; every other balance stays |
| `Backfill.ReconciliationService.Run` | internal/domain/reconciliation/service.go:58-121 | exactly when a row is recorded, each of its fields, status ok if and only if the delta is zero, and nothing else changes |
| `Backfill.SweepWorker.SweepOrg` | internal/worker/sweep.go:75-101 | the effect that the sweep theorems below are about: backfill of the last two intervals, and the wallet check also after a failed backfill |
| `Backfill.SweepWorker.SweepAllOrgs` | internal/worker/sweep.go:64-73 | every listed org is swept once, in order, and none when the orgs cannot be listed |
| `Sweep.SweepsBackfill` | internal/worker/sweep.go:64-84 | a sweep of all orgs posts and marks exactly what one backfill over all their lists does, whatever the wallet checks say |
| `Sweep.SweepsMark` | internal/worker/sweep.go:64-84 | a due credit in the list of any one org is marked, whatever fails for the others |
| `Sweep.SweepsRecord` | internal/worker/sweep.go:64-90 | one row, in order, for each org whose calls succeed, and no other |
| `Sweep.SweepRecords` | internal/domain/reconciliation/service.go:58-121 | the row of an org compares its wallet with its pool as its own backfill left it |
| `Sweep.FirstHundred` | internal/domain/reconciliation/service.go:132-139 | the list is the window, cut at 100 transactions |
| `Sweep.InWindow` | internal/domain/reconciliation/service.go:132-139 | the window holds exactly the transactions created within it |
| `BackfillTheorems.BackfillExact` | internal/domain/reconciliation/service.go:144-216 | the law when marks persist: one run over any list, with repeats and mixed types, marks and posts once exactly the distinct new eligible ids |
| `BackfillTheorems.BackfillTwice` | internal/domain/reconciliation/service.go:150-159 | a second run on the same list changes nothing |
| `BackfillTheorems.BackfillLaw` | internal/domain/reconciliation/service.go:144-216 | for any list and any marks: an unmarked id gains one posting for each eligible occurrence up to and including the first whose mark persists, marks are exactly the persisting ones, and money comes in from exactly these occurrences |
| `BackfillTheorems.PostedOnceIff` | internal/domain/reconciliation/service.go:203-208 | a run posts an unmarked id at most once if and only if the mark of its first eligible occurrence persists or no other eligible one follows |
| `BackfillTheorems.LostMarkPostsTwice` | internal/domain/reconciliation/service.go:203-208 | from any tables, two eligible occurrences of a new id of which the first loses its mark are both posted |
| `Ingest.BackfillArrives` | internal/domain/reconciliation/service.go:145-216 | a whole backfill run after any history equals the arrival of its transactions one by one, so the theorems on arrivals cover runs |
| `Ingest.ArrivalLaw` | internal/domain/reconciliation/service.go:144-216 | over any sequence of whole webhooks, backfill iterations and closures, with any faults, an unmarked id is posted by exactly the arrivals that can post it up to and including the first that marks it |
| `Ingest.ArrivesOnceIff` | internal/domain/reconciliation/service.go:203-208 | such a sequence posts an unmarked id at most once if and only if no backfill posting that loses its mark comes before another arrival that posts the id still unmarked |
| `Ingest.AtMostOnePosting` | internal/api/handlers/webhook.go:95-111 | when the marks after backfill postings persist, each id has at most one inbound, suspense or backfill posting, from any tables that have |
| `Ingest.MarkIsFinal` | internal/store/postgres/events.go:24-39 | nothing that arrives later, by any path and with any faults, posts a marked id |
| `Ingest.FailedCreditIsLost` | internal/api/handlers/webhook.go:169-187 | after a credit transaction fails, no retry and no backfill ever posts that id |
| `Ingest.BackfillIgnoresClosure` | internal/domain/reconciliation/service.go:173-216 | closing an account commutes with a backfill run: the status makes no difference |
| `Ingest.BalanceOfArrivals` | internal/domain/reconciliation/service.go:144-216 | a customer balance grows by the sum over the distinct new ids, whichever path brought each first |
| `Ingest.OrderIndependence` | internal/api/handlers/webhook.go:95-186 | two histories with the same ids, in any order, path mix and number of repeats, give the same balances |
| `Sweep.Coverage` | internal/worker/sweep.go:75-84 | the provider's list may change from sweep to sweep: with sweeps at most `gap` apart, a due credit that is listed as successful from its settlement on is marked whenever gap plus settlement lag is at most two intervals |
| `Sweep.CoveredExactlyOnce` | internal/worker/sweep.go:75-84 | over any number of sweeps an id that no webhook brings has one posting if it is marked and none otherwise |
| `Sweep.SweepTheorem` | internal/worker/sweep.go:45-84 | sweeps at most two intervals apart: every due credit since two intervals before the first sweep that is listed once it exists is marked, and posted exactly once if it was unmarked |
| `Sweep.MarkedIffSeen` | internal/worker/sweep.go:79-80 | with sweeps alone a due credit is marked if and only if some sweep lists it as settled inside its window |
| `Transfers.ValidationMeaning` | internal/api/handlers/transactions.go:214-238 | accepted exactly when the amount is positive and nothing is lacking; otherwise the list holds exactly the lacking fields in order |
| `Transfers.ValidateTransferRequest` | internal/api/handlers/transactions.go:214-238 | the method that appends to the list computes that verdict |
| `Transfers.TransactionHandler.Transfer` | internal/api/handlers/transactions.go:131-190 | the reply and the committed rows are those of the functions that the next rows are about, with any of its calls failing |
| `Outcomes.Refusals` | internal/api/handlers/transactions.go:214-238 | valid if and only if the amount is positive and no field is empty; otherwise a bad amount, or exactly the empty fields in form order |
| `Outcomes.TransferReplies` | internal/api/handlers/transactions.go:131-190 | each of the six answers if and only if its case, in terms of the request, the balance and the failing calls |
| `Outcomes.TransferEffects` | internal/api/handlers/transactions.go:142-212 | submitted leaves exactly the two rows of the debit, rejected those and the two of the reversal when it can be inserted, every other answer nothing |
| `Transfers.TransactionHandler.ReverseLedgerDebit` | internal/api/handlers/transactions.go:195-212 | the compensating credit with its own reference and entry type, or no change |
| `Transfers.RejectedLeavesNoTrace` | internal/api/handlers/transactions.go:169-178 | a rejected transfer whose reversal commits leaves the total of every set of accounts as it was |
| `Transfers.SerialTransferIsCovered` | internal/api/handlers/transactions.go:142-159 | alone, a transfer keeps a balance non-negative and a submitted one moves exactly its amount |
| `Books.BooksBalance` | internal/domain/ledger/service.go:41-203 | for every run and every set of accounts the ledger total is explained by what came in and by the transfers outstanding |
| `Books.Conservation` | internal/api/handlers/transactions.go:142-212 | customers plus suspense equal posted inbound kobo minus accepted transfers, minus debits awaiting an answer or reversal, minus failed reversals, in every run |
| `Books.ConservationOfPayouts` | internal/api/handlers/transactions.go:161-178 | against money that really left, the books are too high by exactly the transfers that were reversed although the provider paid |
| `Books.PaidIsKept` | internal/api/handlers/transactions.go:161-178 | the answer decides between accepted and awaiting reversal, and whether the provider paid is carried from the answer to the end |
| `Books.RunWellOwned` | internal/api/handlers/webhook.go:128-175 | in every run account ids are unique and every webhook credit goes to an account under the org of that account's row |
| `Books.ZeroSum` | internal/domain/ledger/service.go:170-203 | all balances together equal the single-leg suspense and backfill postings |
| `Counterfactual.RewrittenIsAlike` | internal/api/handlers/transactions.go:142-212 | for every run on customer accounts and every i there is a run without transfer i in which all other transfers, handlers, jobs and receipts are as they were |
| `Counterfactual.TransferContributes` | internal/api/handlers/transactions.go:142-212 | had transfer i never run, the total of every set of accounts would differ by exactly what i still has on the books |
| `Counterfactual.ReversedLeavesNoTrace` | internal/api/handlers/transactions.go:195-212 | a rejected and reversed transfer leaves every balance, the pool's included, as in a run in which it never happened |
| `Books.PoolMirrorsCustomers` | internal/domain/ledger/service.go:67-77 | the pool of an org is minus the balances of the accounts opened under it, net of backfilled money |
| `Books.ReconciliationDelta` | internal/domain/reconciliation/service.go:77-115 | the recorded delta is wallet plus customers minus backfilled, and ok if and only if that is zero |
| `Overdraft.StepUncommitted` | internal/domain/ledger/service.go:98-143 | no step but a funds check lowers the balance net of checked amounts |
| `Overdraft.UncommittedBound` | internal/domain/ledger/service.go:98-143 | the invariant carried through every run: balance minus checked amounts is at least -(k-1)*M |
| `Overdraft.OverdraftBound` | internal/domain/ledger/service.go:98-143 | with at most k transfers in flight of at most M kobo the balance never falls below -(k-1)*M |
| `Overdraft.NoOverdraftWhenSerial` | internal/domain/ledger/service.go:98-106 | one transfer at a time never overdraws |
| `Overdraft.PrudentNeverOverdraws` | internal/domain/ledger/service.go:98-143 | a run in which every check that passes on the account leaves room for the amounts already checked there never overdraws it, whatever overlaps |
| `Overdraft.ImprudentCheckOverdraws` | internal/domain/ledger/service.go:98-143 | after any run, a check that passes without that room can be continued to an overdraft by inserting debits alone |
| `Overdraft.OverdraftIsReached` | internal/domain/ledger/service.go:98-143 | for every k and M a run attains -(k-1)*M within those limits |
| `Protocol.WebhookProtocol` | internal/api/handlers/webhook.go:95-186 | under any overlap and any crashes: at most one inbound credit per id, only for marked ids, and as many deliveries as credits |
| `Protocol.EveryCreditPaired` | internal/domain/ledger/service.go:55-78 | in every run each inbound credit stands next to its pool leg of the same group, amount, reference and time |
| `Protocol.WebhookIsASchedule` | internal/api/handlers/webhook.go:95-186 | the sequential handler is its three steps run without interruption |
| `Protocol.BackfillIsASchedule` | internal/domain/reconciliation/service.go:145-208 | one loop iteration is its three steps run without interruption |
| `Protocol.TransferIsASchedule` | internal/api/handlers/transactions.go:142-178 | a transfer is its four steps run without interruption |
| `Protocol.MarkedIdsAreFinal` | internal/api/handlers/webhook.go:95-111 | a marked id nobody is working on is never posted again in any continuation |
| `Overlap.MarkedIsFinalIff` | internal/api/handlers/webhook.go:95-111 | a marked id is never posted again in any continuation if and only if no handler holds it and no backfill job selected it before the mark |
| `Overlap.CarefulIsExclusive` | internal/domain/reconciliation/service.go:150-208 | the invariant of a careful run: an unmarked id is with at most one backfill job and no handler; a marked one is with one handler, or with one job that has still to post it, or posted, or none of these |
| `Overlap.RunRecorded` | internal/domain/ledger/service.go:41-203 | in every run the ledger rows that bring in an id are exactly as many as its receipts |
| `Overlap.CarefulPostsOnce` | internal/api/handlers/webhook.go:95-186 | under any overlap, a run that is careful with an id posts it at most once, by whichever path |
| `Overlap.CarelessPostsTwice` | internal/domain/reconciliation/service.go:150-208 | after any careful run, every step that breaks the discipline (a webhook's mark or a second check while a job is live, a lost mark, a stop before the mark) can be continued to a second posting |
| `Overlap.CarelessHappens` | internal/domain/reconciliation/service.go:150-173 | such a step is reachable for every account, transaction and matching event with positive amounts |
| `Closure.CreditsClosedIff` | internal/api/handlers/webhook.go:128-181 | in every run a webhook credits an account that is closed at that moment if and only if it was active at the handler's lookup and closed between lookup and commit |
| `Closure.CloseOvertakesCredit` | internal/api/handlers/webhook.go:144-181 | from every state with a creditable event such a close makes the webhook credit the closed account in full |
| `Statement.RunningBalances` | internal/domain/account/service.go:237-257 | the loop fills row k with the closing balance less everything above it |
| `Statement.AccountService.GetStatement` | internal/domain/account/service.go:209-268 | answers if and only if some account row has that id and that org, the offset is non-negative and the queries succeed; then with the limit, 20 outside 1 to 100, exactly the rows from the offset on, and exact balances |
| `Statement.SelectsAccount` | internal/store/postgres/ledger.go:95-101 | the account's rows are all its rows, as often as the ledger has them, and no others |
| `Statement.ClosingBalance` | internal/store/postgres/ledger.go:79-92 | the balance as of a row's time is the true balance at that row plus the tie error |
| `Statement.StatementIsExact` | internal/domain/account/service.go:227-257 | every balance of a page is the true sum of its row and everything older plus one constant, the signed sum of earlier rows with the first row's timestamp |
| `Statement.PagesJoin` | internal/domain/account/service.go:229-266 | the gap between consecutive pages is the difference of their tie errors, empty pages included |
| `Statement.NoTieNoError` | internal/domain/account/service.go:229-235 | no error at offset 0, nor with distinct timestamps |
| `Statement.PageExactIff` | internal/domain/account/service.go:229-257 | with ties, all balances of a page are true if and only if the rows of its first row's tie group on earlier pages sum to zero |
| `Statement.TiedPageIsOff` | internal/domain/account/service.go:229-235 | of any two rows with one timestamp the second page closes at the sum of both instead of the second alone |
| `Statement.RunningIsAsOf` | internal/store/postgres/ledger.go:77-92 | without ties each running balance is GetBalanceAsOf at its row's time |
| `Statement.FirstPageCloses` | internal/store/postgres/ledger.go:62-75 | the first page closes at GetBalance, ties or not |
| `Statement.PagesCompose` | internal/domain/account/service.go:209-268 | without ties a page opens where the next one closes, and the last opens at zero |
| `Statement.PagesCover` | internal/store/postgres/ledger.go:95-124 | the concatenated pages are the whole ledger of the account |
| `Outbound.OutboundWorker.Dispatch` | internal/worker/outbound.go:70-83 | one round attempts the batch in order, stopping early when cancelled, and touches only deliveries |
| `Outbound.OutboundWorker.Deliver` | internal/worker/outbound.go:85-109 | one post, one more attempt, and the row written only when the update succeeds |
| `Outbound.OutboundWorker.ScheduleRetry` | internal/worker/outbound.go:111-123 | failed from the fifth attempt on, otherwise due again after 30 seconds doubled per attempt |
| `Outbound.OutboundWorker.UpdateDelivery` | internal/store/postgres/reconciliation.go:181-194 | writes the three fields of the one row with that id |
| `Outbound.DueRowsListed` | internal/store/postgres/reconciliation.go:155-178 | the listing holds exactly the due rows, sorted by creation time whatever the order of their commits, without repeats |
| `Outbound.FirstFifty` | internal/worker/outbound.go:71-71 | a round takes the first fifty due rows, or all when there are no more |
| `Outbound.DispatchMeans` | internal/worker/outbound.go:70-109 | each row that the round gets to has one more post and, when its update persists, is the attempted row; every other row stays |
| `Outbound.AttemptMeans` | internal/worker/outbound.go:85-123 | delivered after a success, failed after the fifth failure, due again after 30, 60, 120 or 240 seconds otherwise, and no other field changes |
| `Retry.RetryInvariant` | internal/worker/outbound.go:85-123 | in every run, lost updates included, each row is determined by those of its posts whose update persisted: attempts, status, next due time and spacing |
| `Retry.PostsCounted` | internal/worker/outbound.go:85-109 | in every run a delivery's posts are its attempts, at most five, plus its lost updates, and N deliveries cause at most 5N posts plus the lost updates |
| `Retry.RetryBounds` | internal/worker/outbound.go:85-123 | without lost updates: pending means at most 4 attempts; failed exactly five unsuccessful posts; delivered exactly when some post succeeded; attempt n no earlier than 30*(2^(n-1)-1) seconds after the first; N deliveries cause at most 5N posts |
| `Retry.TerminalIsFinal` | internal/worker/outbound.go:111-118 | delivered and failed are never left and never posted again, even when updates are lost |
| `Retry.LostUpdatesRepeat` | internal/worker/outbound.go:105-108 | from any queue, while updates are lost every delivery of the batch is posted once more in every round, without bound |
| `Fairness.MissedBatch` | internal/store/postgres/reconciliation.go:155-161 | a due row is missed only behind 50 older due rows |
| `Fairness.AttemptsUseUp` | internal/worker/outbound.go:85-123 | every attempt on an older row uses up one of at most five |
| `Fairness.AttemptedWithin` | internal/worker/outbound.go:70-123 | a due delivery with p older pending ones is attempted within floor((p+late)/10)+1 full rounds, `late` counting deliveries that are committed meanwhile with an earlier creation time |
| `KeyCache.APIKeyAuth.Authenticate` | internal/api/middleware/auth.go:33-91 | each decision if and only if its case, without the database for 60 seconds after an entry was stored; the decision is the uncached one; and exactly how the cache changes |
| `KeyCache.APIKeyAuth.Revoke` | internal/api/handlers/apikeys.go:122-147 | after a serial revocation the uncached and the cached decision are both a refusal |
| `KeyCache.AskMeans` | internal/api/middleware/auth.go:54-91 | a whole request in the interleaved model: a fresh entry is left as it is, otherwise the key is cached as the store has it if and only if the store accepts it, and no other entry changes |
| `KeyCache.SerialRunsAgree` | internal/api/middleware/auth.go:54-115 | in every serial run each cached organisation is what the store answers at that moment |
| `KeyCache.BoundedStaleness` | internal/api/middleware/auth.go:54-91 | interleaved, a served key was active, for that organisation, when its entry's lookup read it, so a revocation is less than 60 seconds plus the lookup-to-store gap old |
| `KeyCache.EvictionHoldsIff` | internal/api/middleware/auth.go:111-115 | from every state with a revoked key: once evicted it is never served again in any continuation if and only if no lookup of it is under way at the eviction |
| `KeyCache.RevocationHoldsIff` | internal/api/handlers/apikeys.go:129-143 | with anything between the store's revocation and the eviction, the key is gone for good if and only if every lookup of it that was under way at the revocation has been stored by the eviction |
| `ClientFactory.Factory.BuildEntry` | internal/nomba/factory.go:155-197 | stored credentials, else the fallback, and which failures give no entry |
| `ClientFactory.BuildMeans` | internal/nomba/factory.go:155-203 | which address, ids and secrets client and verifier carry, the fallback, and when there are none |
| `ClientFactory.Factory.EntryFor` | internal/nomba/factory.go:138-153 | a fresh entry without a build, otherwise the current build, stored for 300 seconds |
| `ClientFactory.Factory.ForOrg` | internal/nomba/factory.go:71-83 | returns the client that the current configuration would build, and when it fails |
| `ClientFactory.Factory.VerifierForOrg` | internal/nomba/factory.go:87-99 | returns the verifier of that same build |
| `ClientFactory.Factory.Upsert` | internal/api/handlers/nomba_config.go:133-141 | saving then evicting keeps the cache in agreement with the configuration |
| `ClientFactory.UseMeans` | internal/nomba/factory.go:71-99 | a whole call in the interleaved model: a fresh entry is left as it is, otherwise the build of the latest version is cached if there is one |
| `ClientFactory.LatestMeans` | internal/nomba/factory.go:155-156 | an org's configuration is the one saved last under it |
| `ClientFactory.SerialRunsAgree` | internal/nomba/factory.go:71-197 | in every serial run each cached entry is what the configuration of that moment builds |
| `ClientFactory.BoundedStaleness` | internal/nomba/factory.go:71-197 | interleaved, client and verifier of a served entry come from the one version current at its read, and it misses only versions younger than five minutes plus its read-to-build gap |
| `ClientFactory.InvalidationHoldsIff` | internal/nomba/factory.go:101-107 | from every state and for every saved version n: after the eviction no entry older than n is ever served if and only if, at the eviction, no fresh older entry waits to be stored and no read that would build one is under way |
| `Identity.CustomerStore.UpdateDisplayName` | internal/domain/identity/service.go:64-97 | each of the four outcomes if and only if its case, the unique constraint included, and the versions after each of the writes |
| `Identity.RenameKeepsOpenCount` | internal/domain/account/service.go:286-305 | a rename preserves the number of open versions, whatever it was |
| `Identity.HalfRenameLosesOne` | internal/domain/account/service.go:291-305 | a rename whose second write fails leaves one open version fewer |
| `Renames.RenameIsASchedule` | internal/domain/identity/service.go:64-97 | the sequential rename is its read, close and create run without interruption, and is not redundant |
| `Renames.OpenVersionsCounted` | internal/domain/identity/service.go:67-88 | in every run of overlapping renames the open versions are those that creation inserted, plus one per redundant rename, minus one per unfinished one |
| `Renames.RedundantIff` | internal/domain/identity/service.go:67-75 | in every run a completed rename is redundant if and only if another rename's effective close of the same version lies between its read and its close |
| `Renames.RedundantHasFirst` | internal/domain/identity/service.go:73-75 | the version of a redundant rename was closed first by exactly one other rename |
| `Renames.OverlappingRenamesOpenTwo` | internal/domain/identity/service.go:67-88 | from every state, two renames that read the same current version leave one open version more, the unique constraint notwithstanding |
| `Identity.TiledHasOneOpen` | internal/store/postgres/customers.go:86-100 | in a tiled history the current version is the last and only open one |
| `Identity.OneInForce` | internal/store/postgres/customers.go:72-110 | in a tiled history exactly one version is in force at every instant since the first |
| `Identity.TiledCanClose` | db/migrations/000001_initial.up.sql:29-29 | in a tiled history the unique constraint never refuses a rename under a later clock |
| `Identity.HistoryTiles` | internal/domain/identity/service.go:64-97 | serial renames under a strictly increasing clock keep the timeline without gap or overlap, and the last name given is current |
| `Identity.HistoryIsFaithful` | internal/domain/identity/service.go:64-97 | no sequence of later renames changes the name in force at an earlier instant |
| `Kyc.CustomerStore.UpgradeKYCTier` | internal/store/postgres/customers.go:115-160 | each outcome, failing statements included, if and only if its condition, and the tier and the history row it leaves |
| `Kyc.HistoriesAreChains` | internal/store/postgres/customers.go:115-160 | under any interleaving of locked upgrades every history is a contiguous strictly increasing chain from creation tier to current tier |
| `Kyc.AtMostTwoUpgrades` | internal/api/handlers/accounts.go:370-375 | a customer is upgraded at most as often as the tier rose, hence at most twice |
| `Kyc.LockAndCommit` | internal/store/postgres/customers.go:122-158 | an undisturbed lock and commit raise the tier by exactly the request, or reject it and release the lock |
| `Kyc.UpgradeIsASchedule` | internal/store/postgres/customers.go:115-160 | the sequential upgrade is one schedule of the interleaved model |
| `TierListing.ListedInOrderIff` | internal/store/postgres/customers.go:164-171 | every answer of the listing shows the upgrades in the order in which they took place if and only if their times strictly ascend |
| `TierListing.SerialUpgradesListedInOrder` | internal/api/handlers/accounts.go:375-375 | in every run in which each upgrade of a customer reads its time after the previous one committed, the listing is in order |
| `TierListing.OvertakingBreaksListing` | internal/store/postgres/customers.go:115-160 | from every state with two tiers to go, an upgrade that overtakes another leaves a history that is listed out of order |
| `Provisioning.AccountService.Create` | internal/domain/account/service.go:50-125 | unknown customers and customers of other orgs get nothing, an active account is returned, and otherwise one row with these fields is added if and only if nothing fails and its customer and number are new; a failed listing counts as no account |
| `Provisioning.AccountService.CloseAccount` | internal/domain/account/service.go:330-349 | succeeds exactly for an active account of the org; that row ends closed and every other row stays |
| `Provisioning.OneAccountPerCustomer` | internal/domain/account/service.go:62-110 | however creates overlap, a customer has at most one account and all answers name it |
| `Provisioning.ClosedIsFinal` | internal/domain/account/service.go:65-110 | once the account is closed no create answers that customer again, in any continuation |
| `Provisioning.CreateAnswersIff` | internal/domain/account/service.go:50-125 | a fault-free create answers if and only if the account is active, or there is none and the number is new |
| `Slug.SlugIsNormal` | internal/domain/auth/service.go:218-224 | every slug is empty or lower-case groups joined by single dashes |
| `Slug.FixedIffNormal` | internal/domain/auth/service.go:220-224 | slugify fixes exactly the strings in that form |
| `Slug.SlugifyIdempotent` | internal/domain/auth/service.go:220-224 | applying it twice is applying it once |
| `Slug.SlugJoinsWords` | internal/domain/auth/service.go:220-224 | the slug is the name's maximal letter-and-digit groups, in order and lower case, joined by dashes |
| `Slug.WordIsKept` | internal/domain/auth/service.go:220-224 | a name of letters and digits only is its own slug up to case |

## Left out

- HTTP routing, JSON, logging, configuration, start-up, the dashboard and the documentation site.
- The provider's HTTP client: it is an accept-or-reject answer and a list of transactions.
- Cryptography: signatures, encryption, password hashes and tokens; key hashes are opaque strings, and a secret either decrypts or not.
- SQL execution: each query has its relational meaning (sum, filter, sort, limit, unique insert).
- The idempotency middleware, which no route mounts; signup, login and refresh; list and admin endpoints; bank lookup; the last-used stamp of API keys.
- Integer widths: balances, amounts and attempts are unbounded, so int64 overflow is not modelled; float64 is treated in Kobo only.
- Names outside ASCII: slugs are modelled on ASCII letters only.
- Ingest.OrderIndependence: assumes fault-free arrivals for active accounts whose events agree on account and amount, since a fault after the mark loses a credit.
- Sweep.Coverage: assumes that a window fits on the one page of 100 transactions the code reads.
- Books.Conservation: assumes that transfers debit customer or suspense accounts; the handler does not check whose account it debits.
- Books.ReconciliationDelta: assumes that transfers under an org debit only its own accounts; the handler does not check it.
- Counterfactual.ReversedLeavesNoTrace: assumes that transfers debit customer accounts, for the same reason.
- Backfill.SweepWorker.SweepOrg: the clock is read once for both ends of the window; the second read of the code only widens it.
- Fairness.AttemptedWithin: assumes uncancelled rounds, persisting updates, and that deliveries of equal creation time are listed in commit order.
- Overdraft.ImprudentCheckOverdraws: assumes that the pools behind the checked transfers are seeded, without which their debits fail.
- KeyCache.BoundedStaleness: one process's cache; entries of other processes are not evicted by a revocation, and the same bound applies to each.
- ClientFactory.SerialRunsAgree: the global fallback is fixed before first use, as SetGlobalFallback demands.
- Protocol.TransferIsASchedule: for a validated request with a provider client and a readable balance; without these the handler stops before any write.
- The order of rows with equal created_at in a statement is any order, but the same for all pages of one listing.
- Overlap.MarkedIsFinalIff: its converse needs something to post and a posting that can commit, for the same reason as the next.
- Overlap.CarelessPostsTwice: needs something to post, that is a positive amount and, for a webhook, an active account with a seeded pool.
- Outbound posts are recorded in a ghost history; an org without an endpoint counts as a successful post, as in the code.
