# Verified models of a pay-per-view streaming server

The repository is a Rust server that sells access to videos: users keep an internal wallet, pay through it, through
hosted invoices or on chain (x402), and instances federate their catalogues over ActivityPub. This project models the
parts of it that carry state from step to step, and proves what those parts promise over every input and every run.

Database tables are maps, sequences and sets; a database transaction either commits all of its writes or leaves the
tables as they were. Handlers are methods over those tables, each proved equal to a function of the old tables. What
that function does to the tables is stated outright beside it, and the laws are lemmas about it, its runs and its
interleavings.

| file | subject |
|---|---|
| Common.dfy | options, 64-bit integers, sums over finite maps |
| WalletStore.dfy | the wallet tables and the body of every transaction on them: what it reads, and the writes it decides on |
| WalletLedger.dfy | the ledger explains each balance, money is conserved, settled rows stay settled |
| WalletEffects.dfy | what each committed wallet operation does to whom, exactly when it commits, and what undoes it |
| WalletTx.dfy | the same bodies as lock, read, write and commit steps: serializability and freedom from deadlock |
| WalletOutcomes.dfy | how interleaved transactions end, and that they do |
| WalletHandlers.dfy | the wallet handlers over their tables; one charge per buyer and video |
| PurchaseRaces.dfy | buying with the check and the transaction as separate events of a run |
| LateCompletions.dfy, CompletionRaces.dfy | completing a withdrawal with the status read and the update as separate events of a run |
| X402.dfy, X402Logs.dfy | converting a price to token units; finding the payment among a receipt's logs |
| Payments.dfy, PaymentDesk.dfy | three ways to pay, as calls on the tables and as methods |
| PaymentLaws.dfy, PaymentEffects.dfy | access over whole runs, replays, commissions and payouts; what each call does and who may watch because of it |
| Replica.dfy, FederationNodes.dfy | publishing videos to a follower that deduplicates and handles in any order |
| Broadcast.dfy | distributing one activity to the inboxes of several followers |
| Delivery.dfy | the retrying delivery worker |
| RateLimiter.dfy | the sliding-window rate limiter |
| TreeWalk.dfy, Migration.dfy | collecting files, and the storage migration job as two loops |
| MigrationRuns.dfy, MigrationJobs.dfy | jobs with start and cancel requests interleaved; a whole job does what the loops do |
| Text.dfy, Base64.dfy, Keys.dfy, Signatures.dfy | string operations, base64, private keys at rest, the Signature header |
| Revenue.dfy | shares for referring instances, their ledger and the settlement report |

## Where the code does less than it says

Each of these is false of the code. The lemmas named say exactly when the code does meet the property, and give an input
or a run that fails.

- `admin_wallet_complete` updates without looking at the status again. A withdrawal rejected after the status was read
  ends both refunded and completed (`CompletionRaces.ExplainedExactlyWhen`, with the run in
  `CompletionRaces.SlippedPayoutHappens`).
- `wallet_pay_video` looks for an earlier purchase before it opens its transaction. Two requests that both get past the
  check charge the buyer twice (`PurchaseRaces.ChargedOnceExactlyWhen`, with the run in
  `PurchaseRaces.TwinsAreChargedTwice`).
- A wallet purchase so small that the creator's share rounds to zero never succeeds: the table demands positive amounts
  (migrations/028_wallet.sql; `WalletEffects.SaleCommitsExactlyWhen`).
- `admin_disburse` reads the timestamp `disbursed_at` as text. A set timestamp does not decode, the failure counts as
  absent, and so its guard never stops a second payout (src/handlers/admin.rs:490, 507, 514;
  `PaymentLaws.PaidOutOnceExactlyWhen`, with the run in `PaymentLaws.TwoPayouts`).
- Webhooks and confirmations discard the errors of their statements. When the paid mark is lost, the next delivery pays
  the commission again (`PaymentLaws.OneCommissionPerInvoice`, with the run in `PaymentLaws.TwoCommissions`), and a
  payout can go out for an invoice that is not paid (`PaymentLaws.PayoutsOnlyWhenPaid`, with the run in
  `PaymentLaws.UnmarkedPayout`). When a confirmation is marked and both grants are lost, the buyer has paid for nothing
  and repeating it does not help (`PaymentLaws.PaymentEntitles`, `PaymentLaws.LostGrantStaysLost`).
- A confirmation below the required amount asks the buyer to top up the remainder, and adds up what was received. But
  only a single payment of the whole amount unlocks (`PaymentLaws.SettledExactlyWhen`, with the run in
  `PaymentLaws.TopUpStaysLocked`).
- With 20 decimals and a large price the x402 amount falls below the price (`X402Amount.ExactExactlyWhen`, with the
  price in `X402Amount.ExactUpTo19`); it is never above.
- A broadcast gives every inbox the same activity URI, which the table keeps unique. With two different inboxes only
  the first is served (`Broadcast.EveryoneReachedExactlyWhen`).
- An inbox stores an activity before the handling that it spawns, one task for each. A handling that fails is never
  repeated, and one that is overtaken by a later one about the same video undoes it (`Replica.FollowerConverges`, with
  the runs in `Replica.LostCreateStaysAway` and `Replica.OvertakenUpdate`).
- Resuming a migration compares backends but not buckets, so a completed job can lack files in its bucket
  (`MigrationRuns.CompletedFromTheStart`, with the run in `MigrationRuns.ResumeAcrossBuckets`).
- A cancel request that read the status before a job closed overwrites the closing status afterwards, and a job in that
  status cannot be resumed (`MigrationRuns.ClosingStatusLasts`, with the run in `MigrationRuns.LateCancelOverwrites`).
- Object keys turn backslashes into slashes, so two files can share a key (`Migration.KeysAgreeExactlyWhen`, with the
  names in `Migration.BackslashNamesCollide`).
- A key id with a comma, or with a quotation mark at an end, does not survive the Signature header
  (`Signatures.ParseHeader`).
- Revenue shares are written without a transaction: a ledger line that fails after its share row is never written later
  (`Revenue.TotalsAreLedgerFold`, with the run in `Revenue.LostLineDisagrees`).

Two more are stated here and in no lemma:

- `wallet_withdraw` discards the result of its commit and answers with success; the model keeps answer and commit apart.
- `provider_settlement_report` returns no row: its query orders by `pending_cents`, which names no column and no alias,
  and its sums are NUMERIC where the code decodes 64-bit integers (src/federation/revenue.rs:366-396). The lemmas about
  totals are about the share rows that it means to add up.

## Model

| member | source | states |
|---|---|---|
| `WalletHandlers.Wallet.Deposit` | src/handlers/wallet.rs:151-201 | a deposit below $10 or for an unknown user changes nothing; otherwise exactly one pending row is added and no balance moves |
| `WalletHandlers.Wallet.Transfer` | src/handlers/wallet.rs:307-437 | commits both balances and both rows, or nothing, including the case that the recipient does not exist |
| `WalletHandlers.Wallet.PayVideo` | src/handlers/wallet.rs:450-661 | commits debit, creator share, two rows, purchase and allowlist entry, or nothing; the amount check of the table refuses a creator share of zero |
| `WalletHandlers.Wallet.PayCommission` | src/commission.rs:23-207 | pays the percentage from owner to affiliate with two rows and an audit row, or does nothing; the result is what was paid |
| `WalletHandlers.Wallet.Approve` | src/handlers/admin.rs:1968-2053 | only a pending deposit is credited, checked for overflow, and it becomes approved in the same transaction |
| `WalletHandlers.Wallet.Reject` | src/handlers/admin.rs:2111-2188 | a pending row becomes rejected, and a withdrawal is refunded in the same transaction unless the sum overflows |
| `WalletHandlers.OneChargePerVideo` | src/handlers/wallet.rs:497-508 | in every run of whole handlers a buyer is charged for a video at most once |
| `WalletHandlers.Wallet.Withdraw` | src/handlers/wallet.rs:211-296 | commits the debit together with its pending row, or nothing; the answer is a success as soon as the statements before the commit have succeeded |
| `WalletHandlers.Wallet.MarkCompleted` | src/handlers/admin.rs:2093-2104 | the update it issues afterwards, whatever the status has become |
| `WalletHandlers.Wallet.Complete` | src/handlers/admin.rs:2059-2105 | with nothing in between, only a pending withdrawal becomes completed |
| `WalletHandlers.LatePurchaseCheck` | src/handlers/wallet.rs:497-515 | a purchase that got past the check, however long ago, keeps one charge per buyer and video if and only if the buyer has not been charged for the video when it commits |
| `WalletLedger.StepKeepsSound` | src/handlers/wallet.rs:228-295 | every body keeps all balances non-negative and explained by rows, and money conserved, while what was paid in fits in 64 bits |
| `WalletLedger.RunIsSound` | src/handlers/wallet.rs:7-13 | the same for every run from an opening state |
| `WalletLedger.LedgerExplainsBalance` | src/handlers/wallet.rs:7-13 | in every reachable state a balance is its opening value plus the signed sum of that user's rows |
| `WalletLedger.MoneyIsConserved` | src/handlers/wallet.rs:246-254 | balances, held and paid withdrawals and platform share add up to the opening total and the approved deposits; each balance lies between zero and that total |
| `WalletLedger.BalancesBounded` | src/handlers/wallet.rs:375-393 | hence the sum of any two balances fits in 64 bits and no addition wraps |
| `WalletLedger.SettledRowStays` | src/handlers/admin.rs:2008-2044 | a row that has left pending never changes again: no deposit credited twice, no withdrawal both refunded and completed |
| `WalletLedger.SaleSplit` | src/handlers/wallet.rs:520-571 | the buyer pays the price, the creator gets the floor of the split, nobody else's balance changes, purchase and allowlist entry are added |
| `WalletLedger.SaleRetains` | src/handlers/wallet.rs:520-522 | the platform keeps exactly the price minus the creator share |
| `WalletLedger.StepGrows` | src/handlers/wallet.rs:415-425 | every body only adds rows or moves a pending row on with its user, kind and amount kept |
| `WalletLedger.LateCompletion` | src/handlers/admin.rs:2070-2097 | a late update keeps the books explained if and only if the withdrawal was not rejected in between |
| `WalletEffects.TransferEffect` | src/handlers/wallet.rs:307-437 | a transfer commits if and only if the amount is at least $1 and within the balance and the recipient is another existing user; then exactly that amount moves and nothing else changes |
| `WalletEffects.CommissionEffect` | src/commission.rs:78-206 | a commission moves the floor of the percentage from owner to affiliate and adds one audit row naming them |
| `WalletEffects.SaleCommitsExactlyWhen` | src/handlers/wallet.rs:520-631 | exactly when a purchase commits, the creator share of at least one cent and the block trigger included |
| `WalletEffects.WithdrawalEffect` | src/handlers/wallet.rs:228-295 | exactly when a withdrawal commits; the money leaves the balance at once and one pending row holds it |
| `WalletEffects.RejectUndoesWithdrawal` | src/handlers/admin.rs:2151-2179 | rejecting a withdrawal restores every balance |
| `WalletEffects.ApprovalCreditsDeposit` | src/handlers/admin.rs:2008-2044 | a deposit request moves nothing; its approval credits exactly the amount to its owner, unless the sum overflows and nothing happens |
| `WalletEffects.CommissionCommitsExactlyWhen` | src/commission.rs:40-123 | exactly when a commission commits: an enabled program, an existing third party, at least one cent and an owner who can pay |
| `WalletEffects.TransferBack` | src/handlers/wallet.rs:349-437 | sending the same amount back restores every balance |
| `WalletEffects.TransferInEveryRun` | src/handlers/wallet.rs:349-437 | in every reachable state a committed transfer moves exactly its amount, and sending it back commits and undoes it |
| `PurchaseRaces.ChargedOnceExactlyWhen` | src/handlers/wallet.rs:497-631 | over every run in which checks and transactions of purchases interleave, each buyer is charged for a video at most once if and only if no purchase commits after a charge for it |
| `PurchaseRaces.TwinsAreChargedTwice` | src/handlers/wallet.rs:497-515 | two requests for one video, both checked before either pays, by a buyer who can pay twice: two charges |
| `PurchaseRaces.EventsAreHandlers` | src/handlers/wallet.rs:497-631 | check and transaction with nothing in between are the handler, and so is every other call |
| `LateCompletions.EventsAreBodies` | src/handlers/admin.rs:2070-2104 | status read and update with nothing in between are the completion, and every other call is its body |
| `CompletionRaces.RunIsSound` | src/handlers/admin.rs:2070-2097 | with the status read and the update of completions as separate events of a run, the books stay sound once every amount that was both refunded and marked as paid is credited |
| `CompletionRaces.ExplainedExactlyWhen` | src/handlers/admin.rs:2070-2097 | over every such run the rows explain every balance if and only if no update finds its withdrawal rejected |
| `CompletionRaces.SlippedPayoutHappens` | src/handlers/admin.rs:2070-2097 | a run from any opening state that ends with a withdrawal refunded and marked as paid out, its balance not explained |
| `WalletTx.Reachable` | src/handlers/wallet.rs:349-437 | under every interleaving of lock, read, write and commit steps: reads stay current, new row ids stay free, locks have owners, and the store is a run of the committed bodies |
| `WalletTx.InterleavingIsSerial` | src/handlers/wallet.rs:228-295 | the committed state equals executing the committed transactions one at a time in commit order; no update is lost |
| `WalletTx.InterleavingKeepsBooks` | src/commission.rs:83-206 | hence every interleaving keeps balances explained and money conserved |
| `WalletTx.CommitKeepsOthers` | src/handlers/wallet.rs:524-631 | a commit leaves what every other open transaction has read and locked unchanged |
| `WalletTx.CommitIsStep` | src/handlers/admin.rs:1979-2046 | a commit writes what the whole body, executed alone in the state of the commit, would write |
| `WalletTx.LocksAscend` | src/commission.rs:85-96 | each body takes a ledger row lock before user rows, and user rows in ascending id |
| `WalletTx.WaitingAscends` | src/handlers/wallet.rs:354-364 | a blocked transaction wants a lock that comes before the one its holder wants |
| `WalletTx.NoWaitCycle` | src/handlers/wallet.rs:529-539 | in no reachable state do transactions wait for one another in a circle |
| `WalletTx.SomeoneCanStep` | src/handlers/admin.rs:2127-2164 | while a transaction is unfinished some unfinished transaction can execute its next statement |
| `WalletOutcomes.EndsExactlyWhen` | src/handlers/wallet.rs:254-296 | a transaction that ends by a statement of its own ends committed if and only if its body goes through in that state; then its writes and its log entry are there at once, and otherwise nothing has changed |
| `WalletOutcomes.OutcomeInEveryRun` | src/handlers/wallet.rs:349-437 | in every run a finished transaction that was not made to fail has a point at which it ended so: no request is lost |
| `WalletOutcomes.EverybodyFinishes` | src/commission.rs:83-206 | from every reachable state all transactions can run to their ends with nothing failing |
| `WalletOutcomes.LoneTransaction` | src/handlers/wallet.rs:254-296 | a request that meets no other transaction does what its body does and is logged if that goes through |
| `WalletOutcomes.AutoTakesEffect` | src/handlers/admin.rs:2093-2104 | the single statements take effect at once |
| `WalletOutcomes.FailRollsBack` | src/handlers/wallet.rs:254-282 | a failing statement writes nothing and frees the locks |
| `PaymentDesk.Desk.AddAllow` | src/handlers/video.rs:226-306 | exactly the owner of a video can list a user name |
| `PaymentDesk.Desk.CreateInvoice` | src/handlers/payment_plugins.rs:127-257 | a refusal of the provider leaves the tables as they were |
| `PaymentDesk.Desk.HandleWebhook` | src/handlers/payment_plugins.rs:313-512 | the first paid notification marks the invoice, grants, pays commission and payout, each only if its statement takes effect; a replay changes nothing |
| `PaymentDesk.Desk.ConfirmX402` | src/handlers/pay.rs:593-931 | only a mined, matching and sufficient payment settles an invoice, less is recorded and leaves it open; the answer is paid even when statements behind it fail |
| `PaymentDesk.Desk.AdminDisburse` | src/handlers/admin.rs:478-565 | succeeds for every paid invoice, disbursed before or not, and for Xendit only with bank details and a successful payout |
| `PaymentEffects.BuyDoes` | src/handlers/wallet.rs:450-661 | exactly when a wallet purchase goes through; then price, creator share, purchase, entry and the commission of the affiliate |
| `PaymentEffects.AfterSaleDoes` | src/commission.rs:40-206 | the commission of a sale: exactly when it is earned, what the owner pays the affiliate, and the audit row that says so |
| `PaymentEffects.WebhookDoes` | src/handlers/payment_plugins.rs:372-512 | the tables after the first paid notification, statement by statement, and that any other notification changes nothing |
| `PaymentEffects.ConfirmDoes` | src/handlers/pay.rs:593-931 | the tables after a confirmation: unchanged without a mined event for the video, a record below the required amount, all grants from it on |
| `PaymentEffects.OthersDo` | src/handlers/admin.rs:505-561 | the tables after a disbursement, a listing, a new invoice, a block and the other calls |
| `PaymentEffects.AccessExactlyWhen` | src/handlers/video.rs:438-527 | view access is had exactly through a free video, ownership, administration or entitlement |
| `PaymentEffects.AccessWasEarned` | src/handlers/video.rs:438-527 | over every run, whoever may watch a priced video of somebody else, is no administrator and was not entitled before has paid for it or been listed in the run |
| `PaymentLaws.EntitlementLasts` | src/handlers/video.rs:438-527 | an entitled viewer stays entitled and has access in every later state |
| `PaymentLaws.PurchasesWerePaid` | src/handlers/payment_plugins.rs:410-439 | every purchase row of a run was there before or was paid for at a named point of the run |
| `PaymentLaws.EntriesWereGranted` | src/handlers/video.rs:226-306 | every allowlist entry was there before, came from the owner's grant or from a payment |
| `PaymentLaws.EntriesHaveCause` | src/handlers/wallet.rs:615-629 | one call adds only entries that it has granted or paid for |
| `PaymentLaws.SettledStays` | src/handlers/pay.rs:621-633 | a paid x402 invoice never changes again |
| `PaymentLaws.PaidGrants` | src/handlers/payment_plugins.rs:410-439 | what a first success adds to purchases and allowlist: each row whose statement takes effect and is not refused |
| `PaymentLaws.PaymentEntitles` | src/handlers/pay.rs:844-882 | a wallet purchase always entitles its buyer; a webhook or confirmation does if and only if a statement that leads to access takes effect or the buyer was entitled already |
| `PaymentLaws.PaidAccessLasts` | src/handlers/video.rs:438-527 | from a payment with such a statement on the buyer has view access, whatever happens later |
| `PaymentLaws.LostGrantStaysLost` | src/handlers/pay.rs:621-633 | a confirmation marked as paid whose two grants fail gives nothing, and no later confirmation of the invoice changes anything |
| `PaymentLaws.ReplaysChangeNothing` | src/handlers/payment_plugins.rs:393-406 | any sequence of webhooks, confirmations and disbursements leaves the same store and payouts as those that succeeded alone, and among these no webhook or confirmation comes after a marked one for the same invoice |
| `PaymentLaws.SuccessIsFinal` | src/handlers/pay.rs:621-633 | after a success whose paid mark took effect no later webhook or confirmation of the invoice succeeds |
| `PaymentLaws.ReplayExactlyWhenMarked` | src/handlers/payment_plugins.rs:410-425 | repeated at once, the same call is a replay if and only if its mark took effect |
| `PaymentLaws.SuccessesAreUnique` | src/handlers/payment_plugins.rs:393-406 | an invoice has at most one marked success in any run, and nothing succeeds after it |
| `PaymentLaws.OneCommissionPerInvoice` | src/handlers/payment_plugins.rs:446-476 | over every run, each invoice pays at most one commission if and only if no call goes through for an invoice that has a commission while its sale earns one: an enabled program, a third party, at least one cent, an owner who can pay |
| `PaymentLaws.MarkedRunsPayOnce` | src/handlers/payment_plugins.rs:410-425 | in particular while the paid marks take effect; a commission then stands for a paid invoice only |
| `PaymentLaws.TwoCommissions` | src/handlers/payment_plugins.rs:410-425 | a webhook whose mark is lost, delivered twice, pays the affiliate twice whenever the owner can afford it |
| `PaymentLaws.LostMarkExactly` | src/handlers/payment_plugins.rs:410-425 | an unmarked webhook or confirmation delivered twice pays two commissions if and only if the sale earns one at the first and still at the second |
| `PaymentLaws.LateCommission` | src/handlers/payment_plugins.rs:372-406 | a body that got past its guard keeps one commission per invoice if and only if the invoice has none yet or the sale earns none |
| `PaymentLaws.DisbursesAgain` | src/handlers/admin.rs:505-516 | a disbursement that has succeeded once succeeds every time it is repeated, and pays out again |
| `PaymentLaws.TwoPayouts` | src/handlers/admin.rs:486-516 | a Xendit invoice, its webhook with the automatic payout and one disbursement by an administrator: two payouts |
| `PaymentLaws.PaidOutOnceExactlyWhen` | src/handlers/admin.rs:511-561 | over every run an invoice is paid out at most once if and only if no disbursement goes through for an invoice whose disbursed_at is set already |
| `PaymentLaws.PayoutsOnlyWhenPaid` | src/handlers/payment_plugins.rs:478-504 | over every run, at every moment only paid invoices have been paid out, if and only if no webhook that pays out loses its paid mark |
| `PaymentLaws.UnmarkedPayout` | src/handlers/payment_plugins.rs:410-425 | a fresh Xendit invoice whose webhook loses the mark: paid out and not paid |
| `PaymentLaws.LatePayout` | src/handlers/payment_plugins.rs:478-504 | a body that got past its guard repeats a payout if and only if it pays out an invoice that was paid out |
| `PaymentLaws.SettledOnlyWhenPaid` | src/handlers/pay.rs:702-831 | an x402 invoice becomes paid if and only if the first decodable matching log is for its video and at least the required amount, and the mark takes effect |
| `PaymentLaws.SettledExactlyWhen` | src/handlers/pay.rs:772-831 | over every run, an open invoice becomes paid if and only if some single payment is sufficient; the sum of what was received plays no part |
| `PaymentLaws.TopUpStaysLocked` | src/handlers/pay.rs:833-842 | an underpaid invoice whose remainder is paid as asked: the whole amount received, still underpaid, nothing granted |
| `X402Amount.NeverAboveCeiling` | src/handlers/pay.rs:298-305 | the required amount never exceeds the price rounded up, for any number of decimals |
| `X402Amount.ExactUpTo19` | src/handlers/pay.rs:298-305 | every 64-bit price converts exactly up to 19 decimals, and the largest price with 20 does not |
| `X402Amount.CeilingIsLeast` | src/handlers/pay.rs:298-305 | the ceiling is the least amount that covers the price |
| `X402Amount.ExactExactlyWhen` | src/plugins/payment/providers/x402.rs:161-182 | up to 38 decimals it is the exact ceiling, and covers the price, if and only if that is within reach of the saturating arithmetic |
| `X402Logs.FirstPaidIsFirst` | src/handlers/pay.rs:702-780 | the decided event belongs to the first log that matches and decodes; none means no log does |
| `X402Logs.ScanLogs` | src/handlers/pay.rs:702-780 | the loop over the logs returns that event |
| `FederationNodes.OriginNode.UpdateVideo` | src/handlers/video.rs:320-414 | an edit by the owner is stored and queues the Create, Update or Delete that its visibility change calls for |
| `FederationNodes.FollowerNode.ProcessInbox` | src/federation/collections.rs:306-388 | an activity id seen before changes nothing; otherwise the activity is stored and its handling left to a task of its own |
| `FederationNodes.FollowerNode.HandleInbound` | src/federation/activities.rs:293-343 | that task: Create and Update upsert the entry, Delete marks it deleted |
| `Replica.EditTells` | src/federation/video_index.rs:105-213 | after any edit, handling everything ever queued, once and in order, yields the public videos |
| `Replica.DuplicateIsHarmless` | src/federation/collections.rs:306-320 | an activity that was delivered once changes nothing when it is delivered again, at any later time |
| `Replica.FollowerConverges` | src/federation/video_index.rs:275-403 | at every moment of every run, with deliveries and handlings in any order and any of them lost or repeated: the follower lists exactly the public videos with their titles and descriptions if and only if for every video the last activity handled says what the last activity queued says |
| `Replica.CaughtUpConverges` | src/federation/video_index.rs:275-403 | it does once the last activity about each video has been handled and those about one video in their order |
| `Replica.OvertakenUpdate` | src/federation/collections.rs:364-386 | publishing and renaming a video, both delivered and handled the other way round: the old title stays |
| `Replica.HandledOnce` | src/federation/collections.rs:306-320 | every activity takes effect at most once in every run |
| `Replica.LostCreateStaysAway` | src/federation/collections.rs:364-386 | a video published once whose Create is never handled is never listed, however often it is delivered |
| `Replica.EditIsTold` | src/handlers/video.rs:340-400 | an edit by the owner is stored as asked for, and a follower that handles everything lists the video with exactly this title and description if it is public afterwards and no longer if it is not; an edit by anybody else changes nothing |
| `Replica.DeliveredTakesEffect` | src/federation/collections.rs:322-386 | an activity that is new to the follower, once delivered and handled, is the next one handled |
| `Broadcast.FollowerInboxes` | src/federation/video_index.rs:432-455 | each inbox once, shared inboxes preferred, and none missing |
| `Broadcast.Outbox.QueueOutbound` | src/federation/activities.rs:468-516 | an activity URI that is stored already makes the insert fail and adds no job |
| `Broadcast.Outbox.BroadcastToFollowers` | src/federation/video_index.rs:407-428 | all inboxes carry one activity URI, which is unique: the broadcast succeeds if and only if there is at most one distinct inbox |
| `Broadcast.EveryoneReachedExactlyWhen` | sql/040_federation_index_only.sql:63-67 | all followers are reached if and only if they share one inbox, with two inboxes as an example |
| `Delivery.BackoffGrows` | src/federation/delivery.rs:268-277 | the delay doubles with every attempt until the one-hour cap, which it keeps from the twelfth on |
| `Delivery.PassKeepsSound` | src/federation/delivery.rs:44-172 | each row of a pass is attempted once from its state before the pass, other jobs are untouched, and the invariant holds |
| `Delivery.Worker.ProcessDueJobs` | src/federation/delivery.rs:44-172 | the loop over the due rows is that pass |
| `Delivery.Worker.RetryJob` | src/federation/moderation.rs:421-454 | exactly a failed job is queued again with its attempts reset |
| `Delivery.DeliveryIsSound` | src/federation/delivery.rs:44-172 | in every reachable state: none left processing, queued jobs have attempts left, an activity is processed if and only if its job is delivered, posts since the last retry stay within the maximum |
| `Delivery.DeliveredStays` | src/federation/delivery.rs:101-122 | delivered is final |
| `Delivery.BlockedSpendsNothing` | src/federation/delivery.rs:62-87 | a blocked domain fails the job without a post and without spending an attempt |
| `Delivery.AttemptsRunOut` | src/federation/delivery.rs:129-172 | without a retry by an administrator the attempts of a run are bounded by those left, after which the job is delivered or failed |
| `Delivery.PassSettles` | src/federation/delivery.rs:62-172 | what a pass makes of each of its jobs: blocked, delivered, failed, or queued again after the delay of its next attempt |
| `Delivery.EnqueueQueues` | src/federation/activities.rs:495-516 | a new job is queued with its whole budget and its activity is pending |
| `RateLimiter.TailIsWindow` | src/middleware.rs:81-90 | once the front of the deque is inside the window, the deque is exactly what the window holds of the accepted requests |
| `RateLimiter.Limiter.Check` | src/middleware.rs:67-108 | a request is accepted if and only if fewer than 20 accepted requests of its key lie in the last 300 seconds; other keys are untouched |
| `RateLimiter.AcceptedIsSpaced` | src/middleware.rs:26-27 | for every non-decreasing series of times, accepted requests twenty apart are more than the window apart |
| `RateLimiter.AtMostTwentyPerWindow` | src/middleware.rs:26-27 | no closed window of 300 seconds, wherever it starts, holds more than twenty accepted requests of a series |
| `RateLimiter.Limiter.WindowIsBounded` | src/middleware.rs:26-27 | the same for every key of the limiter itself, in every state it reaches |
| `TreeWalk.CollectLocalFiles` | src/storage_settings.rs:151-175 | the explicit-stack walk terminates and returns, strictly ascending, exactly the paths that lead to files; nothing for a missing root |
| `TreeWalk.ReadDir` | src/storage_settings.rs:158-170 | reading one directory moves its files to the result and its subdirectories to the stack, with nothing lost or doubled |
| `TreeWalk.FilesAreListed` | src/storage_settings.rs:158-170 | a path is listed once if it leads to a file and otherwise not at all |
| `TreeWalk.ListingOrderIsIrrelevant` | src/storage_settings.rs:173-174 | two walks of one tree listed in different orders return the same list |
| `TreeWalk.NamesByFirstDifference` | src/storage_settings.rs:173-174 | names are ordered by the first character in which they differ, a proper prefix first |
| `TreeWalk.PathsByFirstDifference` | src/storage_settings.rs:173-174 | paths are ordered by their first different component, a directory before what is below it |
| `Migration.UploadFile` | src/handlers/admin.rs:883-908 | succeeds if and only if one of three attempts does, and reports the retries used |
| `Migration.MigrateFile` | src/handlers/admin.rs:956-1046 | one file adds one row with its outcome, keeps counters and rows in agreement, and puts the file in the target exactly when it is copied |
| `Migration.MigrateAll` | src/handlers/admin.rs:956-1046 | one loop processes its files in order up to the first check that sees the cancellation |
| `Migration.RunJob` | src/handlers/admin.rs:910-1161 | both loops together: the rows are the outcomes of the files reached, a normal end reaches all of them, and the closing status follows from failures and cancellation |
| `Migration.CountsAddUp` | src/handlers/admin.rs:944-947 | copied, failed and skipped add up to the rows; retries are at least two per failure and at most two per file not skipped |
| `Migration.NothingMissing` | src/handlers/admin.rs:949-953 | a job without failures has filled the target if and only if the skipped keys were there already |
| `Migration.KeysAgreeExactlyWhen` | src/handlers/admin.rs:969-974 | two files share an object key if and only if they are of one kind and their paths agree once every name is split at its backslashes |
| `Migration.CleanKeysAreDistinct` | src/handlers/admin.rs:969-974 | in particular never without backslashes in names |
| `Migration.BackslashNamesCollide` | src/handlers/admin.rs:969-974 | a backslash in a name can make two files share a key |
| `Migration.KeysAreScoped` | src/handlers/admin.rs:969-974 | uploads are stored below uploads/ and media below videos/ |
| `MigrationRuns.AtMostOneJob` | src/handlers/admin.rs:1418-1423 | over all interleavings of start requests, jobs and cancel requests at most one is under way, and the flag is down exactly when none is |
| `MigrationRuns.CancelStopsUploads` | src/handlers/admin.rs:956-968 | after a cancellation is recorded at most the file already past its check is uploaded |
| `MigrationRuns.LateCancelOverwrites` | src/handlers/admin.rs:1583-1632 | a concrete run in which a completed job ends as cancel_requested, from which it cannot be resumed |
| `MigrationRuns.CompletedExactlyWhen` | src/handlers/admin.rs:816-834 | the files of a completed job are all in its target if and only if those it skipped are |
| `MigrationRuns.CompletedFromTheStart` | src/handlers/admin.rs:910-953 | it is settled when the job begins: closed as completed, it has all its files in its target if and only if those that it may skip were there at that moment, whatever happens in between |
| `MigrationRuns.CompletedIsComplete` | src/handlers/admin.rs:1442-1489 | they are when the job resumed nothing or a job with the very same target |
| `MigrationRuns.ResumeAcrossBuckets` | src/handlers/admin.rs:1480-1489 | resuming compares backends but not buckets: a concrete run in which a completed job has not stored its only file |
| `MigrationRuns.HolderCanMove` | src/handlers/admin.rs:1425-1561 | whoever holds the flag can always move on |
| `MigrationRuns.JobIsFinite` | src/handlers/admin.rs:1519-1562 | a request and its job take at most a number of steps fixed by the files found |
| `MigrationRuns.FlagComesDown` | src/handlers/admin.rs:1425-1561 | a run in which the holder takes all its steps passes a state in which it has let go and the flag is down |
| `MigrationRuns.ClosingStatusLasts` | src/handlers/admin.rs:1603-1618 | a closing status lasts in every continuation if and only if at that moment no cancel request stands between its read and its write |
| `MigrationRuns.StrandedForGood` | src/handlers/admin.rs:1530-1541 | a job that is over while its row says otherwise, after a lost failure report or a late cancel request, can never be resumed |
| `MigrationJobs.WholeJobDoes` | src/handlers/admin.rs:910-1161 | in a system of interleaved steps, a job that nobody cancels ends with the rows, the stored files and the status that its two loops specify, and the flag is down |
| `MigrationJobs.CancelledJobStops` | src/handlers/admin.rs:956-968 | a recorded cancellation stops the job at its next check, with the rows that it has |
| `Base64.DecodeEncode` | src/federation/keys.rs:66-70 | decoding undoes encoding, with zero, one or two padding characters |
| `Base64.DecodeExactly` | src/federation/keys.rs:81-84 | a text decodes to bytes if and only if it is their encoding |
| `Base64.DigitsAreStandard` | src/federation/keys.rs:66-70 | the digits are those of the standard alphabet, in its order |
| `Base64.StandardVectors` | src/federation/keys.rs:66-70 | three test vectors of RFC 4648 |
| `Keys.MaskInPlace` | src/federation/keys.rs:54-64 | the loop over 32-byte chunks, the last one shorter, masks every byte with its own keystream byte |
| `Keys.MaskedTwice` | src/federation/keys.rs:91-101 | masking twice restores the bytes |
| `Keys.EncryptPrivateKey` | src/federation/keys.rs:39-71 | the stored text is the envelope of nonce and masked key |
| `Keys.DecryptPrivateKey` | src/federation/keys.rs:73-104 | anything but an envelope is refused, and so is a result that is not UTF-8 |
| `Keys.DecryptEncrypt` | src/federation/keys.rs:39-104 | a key comes back as it went in, for every text, secret, nonce and keystream |
| `Keys.DecryptsExactly` | src/federation/keys.rs:73-104 | a text decrypts to a key if and only if it is an encryption of it under some nonce |
| `Keys.OpenedExactly` | src/federation/keys.rs:76-84 | exactly the texts of the form v1, nonce, ciphertext open, each to its own parts |
| `Keys.XorIsExclusive` | src/federation/keys.rs:54-64 | a bit of the masked byte is set if and only if it is set in one of the two bytes and not in the other |
| `Signatures.CreateSignature` | src/federation/signatures.rs:49-74 | the header carries the key id, the signed names and the signature of the signing string |
| `Signatures.ParseSignatureHeader` | src/federation/signatures.rs:162-176 | the loop collects the parameters, later ones overwriting earlier ones; none is an error |
| `Signatures.ParseHeader` | src/federation/signatures.rs:162-176 | parsing a printed header recovers header list and signature always, and the key id if and only if it has no comma and no quotation mark at an end |
| `Signatures.VerifySignature` | src/federation/signatures.rs:93-134 | the checks in order, ending with the key id |
| `Signatures.SameSigningString` | src/federation/signatures.rs:138-160 | the verifier rebuilds the signing string from the same request |
| `Signatures.SignedRequestVerifies` | src/federation/signatures.rs:93-134 | for any scheme that accepts its own signatures a signed request verifies under its key id if and only if its date is recent and the key id survives |
| `Signatures.AcceptedExactlyWhen` | src/federation/signatures.rs:93-134 | of every header: accepted for a key id if and only if it names that id, the date is recent, and its signature decodes to bytes that the scheme verifies for the request |
| `Signatures.SignatureDecides` | src/federation/signatures.rs:125-131 | a well-formed header with any signature is accepted if and only if the scheme verifies that signature, the date is recent and the key id survives |
| `Signatures.IncompleteIsRefused` | src/federation/signatures.rs:96-108 | without a key id or a signature nothing is accepted |
| `Signatures.SigningText` | src/federation/signatures.rs:138-160 | the text that is signed, line by line |
| `Signatures.SignatureBinds` | src/federation/signatures.rs:138-160 | two requests have the same signing text if and only if method, path, host, date and digest agree |
| `Signatures.HeaderParts` | src/federation/signatures.rs:66-74 | the text of the Signature header |
| `Revenue.FloorExactlyWhen` | src/federation/revenue.rs:166-171 | the share is the exact floor if and only if the product fits in 64 bits |
| `Revenue.AtMostHalf` | src/federation/revenue.rs:174-179 | a share under a valid policy is at most half of the gross amount, even when the product wraps |
| `Revenue.Desk.ProcessRevenueShare` | src/federation/revenue.rs:191-277 | writes one share row and one credit, or nothing, in the order of the checks |
| `Revenue.Desk.ReverseRevenueShare` | src/federation/revenue.rs:311-348 | a pending share becomes reversed with one reversal line; anything else changes nothing |
| `Revenue.Desk.SetSharePolicy` | src/federation/revenue.rs:458-484 | upserts exactly policies between 0 and 5000 basis points |
| `Revenue.OneShareOneCredit` | src/federation/revenue.rs:191-222 | after any run: one share row per invoice, at most one credit and one reversal for it, and a positive share of at most half |
| `Revenue.ReplayIsSkipped` | src/federation/revenue.rs:199-211 | processing an invoice that has a share row does nothing, however much later |
| `Revenue.TotalsAreLedgerFold` | src/federation/revenue.rs:191-348 | a domain's pending and reversed totals over the share rows equal the fold of its ledger lines if and only if the lines whose insert failed cancel out |
| `Revenue.LostLineDisagrees` | src/federation/revenue.rs:237-274 | a share row whose ledger line fails: the rows say something is owed, the ledger nothing, and processing again is skipped |
| `Revenue.LedgerAgrees` | src/federation/revenue.rs:281-348 | without database errors credits minus reversals always equal the pending shares |

Shorthands used in the models: a user is the rank of its id in the database's order of users.id; an object URI stands
for the local video it is derived from; fresh UUIDs and sequence values are parameters; `dbOk` and similar parameters
say whether the database accepts a statement; functions passed as parameters (keystream, signing, verifying, upload
outcomes, cancellation) stand for cryptography and input and output.

## Left out

- HTTP, JSON, cookies, SQL text and the connection pool: handlers take parsed arguments and tables.
- RSA, HMAC, SHA-256, keccak and randomness: abstract functions with only the law that is needed.
- WalletTx.Reachable: `admin_wallet_complete` reads and then writes without a lock, and is one atomic statement there, enabled only while nobody holds its row; CompletionRaces.ExplainedExactlyWhen gives what happens otherwise.
- WalletTx.NoWaitCycle: covers the explicit row locks; locks that PostgreSQL takes implicitly for foreign keys and unique keys are not modelled.
- WalletTx.InterleavingIsSerial: the purchase check before the transaction of `wallet_pay_video` is not part of the interleaved body; PurchaseRaces.ChargedOnceExactlyWhen states its effect, over whole transactions.
- WalletHandlers.OneChargePerVideo: is about whole handlers, one after the other; PurchaseRaces.ChargedOnceExactlyWhen separates the check.
- WalletHandlers.Wallet.Complete: its read and its write with nothing in between; Wallet.MayComplete and Wallet.MarkCompleted are the two halves.
- CompletionRaces.ExplainedExactlyWhen: other wallet handlers are whole steps of its runs, and the money paid in together with the double refunds fits in 64 bits.
- WalletHandlers.Wallet.Deposit: the balance shown in the new row is read without a lock and is a parameter.
- PaymentLaws.SettledOnlyWhenPaid: leaves out src/services/x402_watcher.rs, which marks an invoice paid without comparing amounts.
- PaymentDesk.Desk.HandleWebhook: the statement that stamps disbursed_at after a payout is taken to succeed, and so is the read before the guard.
- PaymentLaws.OneCommissionPerInvoice: webhooks, confirmations and disbursements follow one another; PaymentLaws.LateCommission and PaymentLaws.LatePayout say exactly when a body that read its guard too early pays twice.
- PaymentLaws.EntitlementLasts: users keep their names and videos their owners; registration, renaming and deletion are not modelled, nor is an administrator's removal of entries.
- Replica.FollowerConverges: one follower; publication tasks, which the handler spawns, take effect in the order of the edits, so that activities are queued in that order.
- Replica.EditTells: a video starts local and unpublished; the object URI is assigned when it is first published.
- Delivery.DeliveryIsSound: one worker, without a crash between claiming a job and recording its result, which would leave the job in processing.
- Delivery.Worker.ProcessDueJobs: what the query returns is a parameter with the properties the query promises; `parse_url_host_path` would only add easy members.
- RateLimiter.Limiter.Check: times are non-decreasing in the order of the lock; the code reads the clock just before it takes the lock.
- TreeWalk.CollectLocalFiles: errors while reading a directory, and a tree that changes during the walk.
- Migration.RunJob: inserts of item rows whose errors the code ignores are taken to succeed, a failing upload leaves the target as it was, and paths are valid UTF-8.
- MigrationRuns.HolderCanMove: the start handler is not dropped while it awaits with the flag held, and the spawned job does not panic; either would leave the flag set.
- MigrationRuns.CompletedIsComplete: nobody else deletes objects from the target, and no job is interrupted by a restart of the server.
- Keys.DecryptEncrypt: an HMAC is any function from secret, nonce and block index to 32 bytes.
- Signatures.SignedRequestVerifies: the Digest header is one more signed header; its comparison with the body is left out, and so is the arithmetic of the age check.
- Revenue.OneShareOneCredit: calls follow one another; two calls for one invoice at the same time can still both append a credit.
- Revenue.TotalsAreLedgerFold: the reports themselves and the signed referral tokens are left out.
- Amounts in floating point (Xendit, PayPal, federated price text) and the providers' own interfaces.
- Follow handling, remote actor records, moderation lists, chat, mail, profiles, transcoding, playback and pages: input and output, or easy members only.
