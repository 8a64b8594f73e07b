# Transactional protocols of the Printa platform, verified

The platform is a Go monolith over PostgreSQL.  This project models its
transactional cores and proves what they keep over whole runs.

Each core is modelled in two forms that are proved to agree.  A `class` with the
source's fields and methods carries the statements and calls, proved against
specification functions.  A state machine whose steps are single SQL statements,
transactions, provider answers, clock ticks and crashes carries the properties of
runs: `Enabled`, `Apply`, `ValidRun` and `Exec` are the same four notions in every
module, and every result is about all runs from the empty tables unless it says
otherwise.

| files | core |
|---|---|
| `OutboxTable`, `OutboxProtocol`, `OutboxSafety`, `OutboxOwnership`, `OutboxLease`, `OutboxBackoff`, `OutboxProgress`, `OutboxWorker` | the durable outbox: leases, retries, dead letters, any number of workers |
| `Comms`, `CommsKeys`, `NotificationDelivery` | sends under an idempotency key, event fan-out, and a notification from its transaction to the adapters |
| `WalletPosting`, `WalletLedger`, `WalletRuns` | double-entry postings, wrapping totals, snapshots, replay |
| `BillingTables`, `CheckoutProtocol`, `CheckoutSafety`, `CheckoutInvoices`, `TakenKeyRun`, `CheckoutService`, `SubscriptionSafety` | subscription checkout under racing polls and webhooks, and the subscription record |
| `OperatingStatus` | the operating gate and grace periods |
| `Routing`, `OrderTotals`, `Orders` | store choice, order totals, idempotent placement and lifecycle |
| `PolicyConsent`, `DeliveryLocations` | exact policy acceptance, the single default delivery address |
| `Text`, `Prelude` | string helpers, Option and Result |

Every database statement or transaction is atomic, and `NOW()` is an argument of
it.  Times and durations are integers in nanoseconds.  Money is in integer minor
units, or exact reals where the source multiplies and rounds.  What an adapter, a
payment provider or a failing statement answers is an input of the step, so it
may be anything.  Ids are fresh; a unique column is a check that can fail.

## What the code does that its documentation does not say

- The five-minute cap of the retry delay is never reached: the largest delay is 256 seconds (`OutboxBackoff.RetryDelayDoubles`).
- No checkout is ever EXPIRED: that write is rolled back, and the service writes FAILED with provider status EXPIRED (`CheckoutSafety.ActivationIsSound`).
- A mark statement does not name the lease holder.  The leases hold exactly as long as no mark hits an event that somebody else holds (`OutboxLease.LeasesHoldExactly`), which a worker could tell by its clock or by the row's attempts and the statements do not check (`OutboxLease.ExclusivityNeedsTimelyMarks`).  Soundness of the terminal states needs no proviso (`OutboxSafety.TerminalSoundness`).
- An invoice that a client generates under a checkout's own invoice key before activation is taken over as it is (`TakenKeyRun.TakenKeyLeavesUnpaid` is such a run).  An activated checkout is paid for good exactly when nobody had taken the key, or the invoice there already pays for it and is not being edited (`CheckoutInvoices.ActivationPaysForGood`).
- Status writes of subscriptions and orders check nothing.  Racing calls can take a subscription out of CANCELLED without payment (`SubscriptionSafety.RacingCallsRevive`) and an order out of CANCELLED (`Orders.CancelledOrderConfirmed`); `SubscriptionSafety.RecordsAgreeExactly` and `Orders.LifecycleHoldsExactly` say exactly which writes do harm.
- The total of an order is subtotal minus discount plus tax exactly when the discount does not exceed the subtotal (`OrderTotals.TotalsAddUp`).
- An account without entries reads back in the default currency whatever its own is (`WalletRuns.BalanceCurrency`).
- A grace in force covers a vendor whose subscription is not current for any reason, a cancelled one included (`OperatingStatus.GetStatusAt`).
- A manual routing override whose insert fails leaves the order's latest decision OVERRIDDEN (`Routing.OverridesReplace`).
- The comment on routing scores says 50 points per matching rule; the code gives 200 minus the rule's priority, at least 0, and 25 for a satisfied load rule, and so does the model (`Routing.ScoreCandidate`).
- A list of policies with a blank version or a repeated slug cannot be accepted by naming it (`PolicyConsent.ExactAcceptance`).
- A failure between a location's two writes can leave a customer without a default address (`DeliveryLocations.StepSettles`).

## Model

| member | source | states |
|---|---|---|
| OutboxTable.SelectBatch | internal/outbox/outbox.go:86-120 | a claim's batch holds only claimable rows that no other claim has locked, at most the limit, none younger than one left behind, and is short only when nothing is left |
| OutboxTable.Repository.Enqueue | internal/outbox/outbox.go:39-58 | a new id is stored with attempts 0 and the defaults for status, time and payload; a used id changes nothing |
| OutboxTable.Repository.ClaimPending | internal/outbox/outbox.go:86-120 | exactly the picked rows, at most the limit and all due ones if fewer, become PROCESSING, leased from now, with one more attempt, and are returned once each as they then stand; a limit outside 1 to 100 is 25 and a lease not positive is five minutes |
| OutboxTable.ClaimMeans | internal/outbox/outbox.go:86-120 | a claim takes only rows that are PENDING or FAILED and due, or PROCESSING and locked for a whole lease, and leaves none of them behind below its limit; other rows stay |
| OutboxTable.Repository.MarkDelivered | internal/outbox/outbox.go:123-132 | succeeds and changes the row exactly when it is PROCESSING, whoever holds it |
| OutboxTable.Repository.MarkFailed | internal/outbox/outbox.go:135-159 | succeeds exactly on a PROCESSING row, which becomes DEAD_LETTER exactly when its attempts have reached the configured maximum, five if that is below one, and otherwise FAILED, due after the given delay, at least zero |
| OutboxProtocol.RunKeepsInv | internal/outbox/outbox.go:86-159 | the joint invariant of rows, histories and worker queues survives every run, with stale workers, crashes and refused statements |
| OutboxSafety.TraceIsHistory | internal/outbox/outbox.go:86-159 | the protocol's bookkeeping of an event equals what the run's steps did to it: claims, reclaims, row changes, handler answers, scheduled delays, first claim, dead-lettering |
| OutboxSafety.TerminalSoundness | internal/outbox/outbox.go:122-159 | a DELIVERED event had a handler call that returned nil; a DEAD_LETTER one had a failed or missing handler and at least the smallest maximum any worker is configured with of attempts; no proviso on workers |
| OutboxSafety.TerminalIsAbsorbing | internal/outbox/outbox.go:123-159 | a DELIVERED or DEAD_LETTER row is never changed again |
| OutboxSafety.NothingIsLost | internal/outbox/outbox.go:93-106 | a stored event is never deleted, and until terminal it can be claimed from a fixed instant on |
| OutboxSafety.AttemptsAreBounded | internal/outbox/outbox.go:93-106 | attempts equal the claims of the run and exceed the largest maximum only by the event's reclaims; the row changes at most twice per attempt |
| OutboxProgress.RunsAreBounded | internal/outbox/outbox.go:86-159 | a run without reclaims makes at most twice the largest maximum of non-empty claims and marks for every stored event |
| OutboxOwnership.RunKeepsOwner | internal/outbox/outbox.go:93-106 | an event that was never reclaimed is in at most one queue, once, and PROCESSING under that very claim |
| OutboxOwnership.RunKeepsAttempts | internal/outbox/outbox.go:93-106 | in every run the attempts of a queued copy tell which claim made it |
| OutboxLease.MarkKeepsLeasesExactly | internal/outbox/outbox.go:122-159 | a mark keeps the leases exactly when its row is not PROCESSING or no other live lease is on the event |
| OutboxLease.LeasesHoldExactly | internal/outbox/outbox.go:86-159 | the leases hold throughout a run exactly when every mark of the run is harmless in that sense |
| OutboxLease.LeaseExclusivity | internal/outbox/outbox.go:86-158 | with leases of at least one length and harmless marks, no event is held by two workers or twice by one |
| OutboxLease.CheckedMarkIsHarmless | internal/outbox/worker.go:59-82 | a mark is harmless if the worker's own lease still runs or the row still shows the attempts of its claim |
| OutboxLease.CheckedMarksKeepLeases | internal/outbox/worker.go:59-82 | workers that check either before each mark keep the leases in every run |
| OutboxLease.TimelyWorkersAreExclusive | internal/outbox/worker.go:59-82 | workers that stop touching their batch before their lease ends are exclusive |
| OutboxLease.TimelyMarkFindsItsRow | internal/outbox/worker.go:59-82 | a mark sent in time finds its row PROCESSING under this worker's own claim and settles it |
| OutboxLease.StaleMarkReleasesAnothersClaim | internal/outbox/outbox.go:135-159 | a concrete run in which a late failure mark frees a row that another worker still holds |
| OutboxLease.ExclusivityNeedsTimelyMarks | internal/outbox/outbox.go:135-159 | a concrete run, equal leases, in which one late mark leads to two live leases on one event |
| OutboxBackoff.RetryDelayDoubles | internal/outbox/worker.go:84-93 | the delay is one second at first, doubles up to 256 seconds and stays there, below the cap |
| OutboxBackoff.BackoffClosedForm | internal/outbox/worker.go:84-93 | the first n delays add up to 2^n - 1 seconds up to nine, then 256 seconds more each |
| OutboxBackoff.BackoffBeforeDeadLetter | internal/outbox/outbox.go:146-151 | with every worker configured for m attempts and no reclaim, dead-lettering comes after exactly m claims; the delays scheduled by the run's marks, and the time from its first claim to the dead-lettering mark, are 2^(m-1) - 1 seconds for m up to 10, and the longer sum beyond, the time at least |
| OutboxBackoff.DeadLetterAfterMaximum | internal/outbox/outbox.go:135-159 | the same for settings that leave the maximum to its default of five |
| OutboxWorker.Worker.ProcessEvent | internal/outbox/worker.go:72-82 | one event ends DELIVERED exactly on a handler's nil, else DEAD_LETTER exactly at the configured maximum of attempts, else due again after its attempt's delay; other rows stay |
| OutboxWorker.Worker.ProcessOnce | internal/outbox/worker.go:59-70 | a whole poll, whatever its handlers answer and however long they take, is a run of the protocol ending in the table the worker left |
| OutboxWorker.HandlingIsARun | internal/outbox/worker.go:72-82 | handling the first queued event is a run: time, answer, mark |
| Comms.Service.Send | internal/modules/comms/service.go:46-120 | one send, case by case: a used key answers with its log and does nothing else, a refused insert has no effect, otherwise one log is added, the registered adapter is called once and SENT means it accepted; keys are kept unique |
| Comms.SendOutcomeDoes | internal/modules/comms/service.go:46-120 | the same case by case for the specification of a send that the interleaved protocol is compared with |
| Comms.SelectedIsWanted | internal/modules/comms/service.go:149-195 | channel selection and contact lookup give exactly: the device token always, the email address for HIGH and URGENT, the phone for URGENT, where the metadata has them |
| Comms.Service.SendEvent | internal/modules/comms/service.go:124-147 | nil means the device, for HIGH and URGENT the email address and for URGENT the phone, as far as the metadata has them, were each served by a new accepted call; each call's log carries the event's title and text; no other channel or contact is ever called, SMS goes first and email last; an error means one of them was not served |
| CommsKeys.AtMostOneCallPerKey | internal/modules/comms/service.go:46-120 | over every interleaving of sends no two adapter calls carry one non-empty key |
| CommsKeys.SentIsTrue | internal/modules/comms/service.go:50-65 | a send that reports SENT, first or repeated, stands for an accepted adapter call of that log |
| CommsKeys.SendIsARun | internal/modules/comms/service.go:46-120 | an undisturbed Send is one of the interleaved runs, with the same logs, calls and result |
| NotificationDelivery.DeliveredReachesEveryChannel | cmd/worker/main.go:66-77 | a stored notification keeps its event and payload for ever, and once that event is DELIVERED the device, the email address (HIGH, URGENT) and the phone (URGENT) that its metadata names were served for this very event |
| NotificationDelivery.DeliveredWasServed | internal/modules/comms/service.go:124-147 | in every run a DELIVERED dispatch event was served for its own id: push to the device token, email for HIGH and URGENT, SMS for URGENT, where the metadata has the contact |
| NotificationDelivery.OnlyWantedCalls | cmd/worker/main.go:66-77 | over all runs every adapter call belongs to a dispatch event whose notification wants that channel and contact by its priority and metadata |
| NotificationDelivery.RunKeepsInv | internal/modules/notification/postgres.go:44-83 | event copies, running handlers and served channels stay consistent through transactions, workers, sends and crashes |
| WalletPosting.WrapZero | internal/modules/wallet/service.go:93-120 | the wrapped total is zero exactly for true sums that are multiples of 2^64 |
| WalletPosting.SmallAmountsBalanceExactly | internal/modules/wallet/service.go:93-120 | for at most 20 amounts of magnitude at most (2^63 - 1) / 20 the wrapped check is the exact one |
| WalletPosting.WrappedPostingIsAccepted | internal/modules/wallet/service.go:93-120 | a concrete posting off by 2^64 that validation accepts |
| WalletPosting.NormaliseIdempotent | internal/modules/wallet/service.go:59-72 | normalising a posting twice is normalising it once |
| Text.TrimMeans | internal/modules/wallet/service.go:59-72 | trimming leaves the text between the first and the last character that is not white space, and nothing of it is lost |
| WalletPosting.ValidateEntries | internal/modules/wallet/service.go:100-120 | accepts exactly well-formed entries whose true sum is a multiple of 2^64, and otherwise names the first bad one |
| WalletPosting.ValidatePosting | internal/modules/wallet/service.go:58-122 | leaves the normalised posting, field by field, and accepts it exactly within the limits of header and entries with an exact sum that is a multiple of 2^64 |
| WalletPosting.AcceptableMeans | internal/modules/wallet/service.go:58-122 | the accepted postings, limit by limit: lengths, currency, actor, two to twenty entries, each with an amount, known types, and account and vendor exactly on vendor accounts |
| WalletLedger.InsertEntries | internal/modules/wallet/repository.go:182-217 | inserts every entry and collects the touched accounts, or stops at the first failing one |
| WalletLedger.RefreshSnapshots | internal/modules/wallet/repository.go:229-254 | the refreshed snapshots are the exact sums whatever order accounts are visited in, and overflow is noticed whatever the order |
| WalletLedger.Repository.Post | internal/modules/wallet/repository.go:143-227 | the transaction commits everything or changes nothing, with the specified answer in every case, failures of each statement included |
| WalletRuns.PostsExactly | internal/modules/wallet/repository.go:143-254 | after any run a posting under a free key commits exactly when no statement it meets fails, its columns fit, every entry is well formed on an existing account of its vendor and currency, the entries sum to zero and every balance it touches stays in [-2^63, 2^63); the ledger then grows by exactly those entries |
| WalletRuns.RefusalsHaveReasons | internal/modules/wallet/repository.go:143-254 | each error answer has its reason: another source, a missing account, another vendor or currency, a broken column, an overflowing balance, a sum that is not zero or a failing statement |
| WalletLedger.Repository.PostInternal | internal/modules/wallet/service.go:51-56 | reaches the transaction exactly for acceptable postings, and then posts the normalised one |
| WalletRuns.RunFromKeepsInv | internal/modules/wallet/repository.go:143-254 | every run keeps keys unique, entries owned, snapshots exact, and each journal and currency at zero |
| WalletRuns.SnapshotsRefineTheLedger | internal/modules/wallet/repository.go:58-73 | in every reachable state the balance read back is the available, pending and held sum, entry by entry, over all entries of the account |
| WalletRuns.BalanceCurrency | internal/modules/wallet/repository.go:58-73 | the currency read back is the account's exactly when the account has entries or is in the default currency |
| WalletRuns.Conservation | internal/modules/wallet/service.go:100-120 | every journal and every currency nets to zero, so vendor entries equal the negated platform entries |
| WalletRuns.BalancesMirrorThePlatform | internal/modules/wallet/repository.go:181-254 | the balances of all accounts of a currency together are the negated platform accounts of that currency |
| WalletRuns.EntriesBelongToTheirAccounts | internal/modules/wallet/repository.go:182-217 | every recorded entry's vendor owns its account, in the account's currency |
| WalletRuns.Replay | internal/modules/wallet/repository.go:143-180 | after any further history a used key answers with its journal for the same source, refuses another source, reports its own failing statements, and changes nothing in any case |
| WalletRuns.KeysAndJournals | migrations/000036_create_vendor_wallet_engine.up.sql:64-83 | a posting that commits adds one journal under a key no journal had; no two journals share a key |
| WalletRuns.FaultChangesNothing | internal/modules/wallet/repository.go:143-227 | a refused journal, lookup, entry, snapshot or commit statement that the posting meets is reported and leaves the tables as they were |
| WalletRuns.UnbalancedPostingNeverCommits | migrations/000036_create_vendor_wallet_engine.up.sql:222-242 | a posting whose true sum is not zero never commits, wrapped or not |
| WalletRuns.StepAppends | internal/modules/wallet/repository.go:143-227 | postings only append: journals, entries and accounts already there are kept |
| BillingTables.Repository.RecordCheckoutCollection | internal/modules/billing/postgres.go:292-298 | records the provider's id on a pending checkout only, and fails when another checkout has it |
| BillingTables.Repository.MarkCheckoutFailed | internal/modules/billing/postgres.go:300-306 | fails a pending checkout and touches nothing else |
| BillingTables.Repository.ActivateCheckout | internal/modules/billing/postgres.go:308-391 | activates subscription, invoice and checkout together or leaves all tables as they were, the EXPIRED write included, as the two rows below spell out |
| BillingTables.ActivationSucceedsExactly | internal/modules/billing/postgres.go:308-391 | it succeeds exactly on a checkout that already succeeded, or a pending one completed before expiry with its invoice there or number free, its payment id free and no failing statement; each other case has its error and writes nothing |
| BillingTables.ActivationWrites | internal/modules/billing/postgres.go:333-391 | an activation leaves the vendor's one record, under its old id if it had one, ACTIVE, monthly, on the checkout's tier, for thirty days from the payment, trial, cancellation and reason cleared, auto-renewing; the checkout SUCCESSFUL with payment, record, invoice and time; a new invoice PAID for that record, amount and period; no other row changed |
| BillingTables.Repository.UpdateSubscriptionStatus | internal/modules/billing/postgres.go:52-65 | the write sets the cancellation time exactly when it cancels and keeps an unnamed reason |
| CheckoutService.Service.VerifySubscriptionCheckout | internal/modules/billing/service.go:191-229 | every case of a verification: whose checkout it is, expiry, mismatch, success, failure, and the tables it leaves |
| CheckoutService.VerifiedMeans | internal/modules/billing/service.go:191-229 | every way a verification ends: not the vendor's, settled before, expired (FAILED), unanswered or mismatched (unchanged), "successful" (activated exactly if the transaction can), "failed" (FAILED with the provider's status and reason), anything else (unchanged) |
| CheckoutService.Service.CreateSubscriptionCheckout | internal/modules/billing/service.go:77-120 | hands out the newest live checkout of the vendor and tier if there is one, otherwise a new one at the current price; refuses unavailable or free tiers |
| CheckoutService.VerificationIsARun | internal/modules/billing/service.go:191-229 | an undisturbed verification is a run of the interleaved protocol with the same tables |
| CheckoutService.CreationIsARun | internal/modules/billing/service.go:95-119 | an undisturbed creation is a run of the protocol's read, lookup and insert |
| CheckoutSafety.TerminalIsAbsorbing | internal/modules/billing/postgres.go:292-391 | SUCCESSFUL and FAILED checkouts never change, under any interleaving |
| CheckoutSafety.TermsAreLocked | internal/modules/billing/service.go:95-119 | vendor, tier, amount, currency, reference and expiry of a checkout are fixed at creation |
| CheckoutSafety.PriceIsLocked | internal/modules/billing/service.go:95-119 | a checkout's amount is its tier's price when the very call that inserted it began, half an hour before its expiry |
| CheckoutSafety.ActivationIsSound | internal/modules/billing/service.go:199-220 | a SUCCESSFUL checkout had a provider answer "successful" for its own reference, its currency and its amount within half a minor unit, and completed before expiry; a FAILED one had expired or had such an answer "failed" and shows its status and reason; the amount is the price locked by the call that created it; none is EXPIRED |
| CheckoutSafety.AnswerTakesEffect | internal/modules/billing/service.go:199-229 | after a matching answer, whatever other calls do in between, the call's write makes a still pending checkout FAILED with the provider's status and reason for "failed" and goes to activation for "successful"; no other answer leads to a write |
| CheckoutSafety.CollectionIsRecorded | internal/modules/billing/service.go:171-181 | the provider's id and status go on a checkout that is still pending unless another one has the id, and an answer "successful" or "failed" is then verified at once |
| CheckoutSafety.InitiationDecides | internal/modules/billing/service.go:164-176 | an initiation's answer is recorded exactly when it names the checkout's reference, amount and currency |
| Text.EqualFoldMeans | internal/modules/billing/service.go:215-220 | statuses and currencies are compared letter by letter, upper and lower case alike |
| CheckoutSafety.ReferenceNamesOneCheckout | internal/modules/billing/service.go:183-189 | two checkouts of a reachable state never share a reference, so a verification by reference reaches the checkout it names |
| CheckoutSafety.WholeMinorUnitsMatchExactly | internal/modules/billing/service.go:199-220 | the tolerance of 0.005 admits no other whole number of minor units |
| CheckoutSafety.OnePaymentActivatesOneCheckout | migrations/000040_create_subscription_checkouts.up.sql:12 | two activated checkouts were paid by two different collections |
| CheckoutSafety.ActivatedOnce | internal/modules/billing/postgres.go:308-391 | in any run the steps that turn a checkout SUCCESSFUL number one if it is SUCCESSFUL, none otherwise |
| CheckoutInvoices.ActivationExactly | internal/modules/billing/postgres.go:351-378 | the activating step makes an invoice exactly when the checkout's key is free and otherwise takes the one there; the invoice pays for the checkout exactly if it was made now or already did |
| CheckoutInvoices.ActivationRenewsVendor | internal/modules/billing/postgres.go:333-349 | the step of any run that turns a checkout SUCCESSFUL leaves its vendor ACTIVE and monthly on the tier paid for, for thirty days from completion, trial and cancellation cleared, under the old record id if there was one, which the checkout names; no other vendor's record changes |
| CheckoutInvoices.StepWritesInvoice | internal/modules/billing/service.go:380-483 | what pay, void and generating calls do to invoices: paid now under the given reference, void, or a new OPEN invoice at the tier's price, ten percent off a year, exactly when key and number are free and the record is not cancelled |
| CheckoutInvoices.RunKeepsKeyInv | internal/modules/billing/postgres.go:351-378 | in every run a checkout's key is used exactly when the checkout is activated or an accepted GenerateInvoice call took it before, and never by two invoices |
| CheckoutInvoices.PaidForGoodExactly | internal/modules/billing/service.go:451-483 | a checkout is paid in every continuation exactly when it is paid now and no pay or void call is past its check on its invoice |
| CheckoutInvoices.ActivationPaysForGood | internal/modules/billing/postgres.go:333-391 | an activated checkout is paid for good exactly when nobody had taken its key, or the invoice there already pays for it and no pay or void call is past its check |
| CheckoutInvoices.ExactlyOnceActivation | internal/modules/billing/postgres.go:333-391 | a SUCCESSFUL checkout succeeded once and exactly one invoice has its key, its own; the activation made it exactly when no GenerateInvoice call took the key first, and then it is PAID for the locked amount and currency at every later state |
| TakenKeyRun.TakenKeyLeavesUnpaid | internal/modules/billing/service.go:380-437 | a concrete run from the empty tables that ends with a SUCCESSFUL checkout, its payment taken and its only invoice OPEN |
| SubscriptionSafety.RecordsAgreeExactly | internal/modules/billing/service.go:335-376 | over interleaved status calls, cancelled_at stays in step with the status throughout a run exactly when every status write cancels or meets a record never cancelled |
| SubscriptionSafety.RecordsAgree | internal/modules/billing/service.go:233-376 | with each service call one step, a record is CANCELLED exactly when cancelled_at is set |
| SubscriptionSafety.StepChangesRecord | internal/modules/billing/postgres.go:52-65 | a vendor's record changes in no other way |
| SubscriptionSafety.CallsWriteRecords | internal/modules/billing/service.go:233-376 | what each call leaves in the record and when: creation, tier change, the nine allowed status changes, and the status write with its reason and cancellation time |
| SubscriptionSafety.TrialsEndWithTheirPeriod | internal/modules/billing/service.go:233-294 | however calls race, a TRIAL ends with its period |
| SubscriptionSafety.OnlyPaymentRevives | internal/modules/billing/postgres.go:333-349 | whatever the interleaving, a cancelled record changes only through a verified checkout of its vendor or a status write decided earlier, and leaves CANCELLED only through such a checkout or such a write to another status |
| SubscriptionSafety.UninterruptedWritesAreFresh | internal/modules/billing/service.go:335-376 | with each service call one step there is no such write |
| SubscriptionSafety.RacingCallsRevive | internal/modules/billing/postgres.go:52-65 | a concrete run of two racing calls that ends PAST_DUE, with cancelled_at set and nothing paid |
| OperatingStatus.GetActiveGrace | internal/modules/operatingstatus/repository.go:106-123 | finds the vendor's one live grace if there is one |
| OperatingStatus.GetStatusAt | internal/modules/operatingstatus/service.go:61-119 | operational exactly when nothing blocks, exactly when approved with a record that is ACTIVE with its period ending after now, TRIAL with its trial (its period when no trial end is set) ending after now, or covered by an in-force grace of this vendor ending after now; each reason, eligibility and the grace shown has its exact condition |
| OperatingStatus.Repository.CreateGraceIfEligible | internal/modules/operatingstatus/repository.go:125-190 | lapses ended graces and grants, returns the period's earlier grace, or rolls back, exactly as specified |
| OperatingStatus.GrantExactly | internal/modules/operatingstatus/repository.go:125-190 | a five-day grace is granted exactly to a PAST_DUE vendor past its period end whose period has had none and that has none running; of the other rows just the vendor's ended graces lapse, and none when the insert is refused |
| OperatingStatus.Service.GetStatus | internal/modules/operatingstatus/service.go:24-26 | the same full description for the stored review, where no review counts as pending |
| OperatingStatus.Service.RequestGrace | internal/modules/operatingstatus/service.go:28-48 | keeps one grace per period and one in force; grants exactly where a grace may be granted; a granted request reports operational exactly for an approved vendor |
| OperatingStatus.RequestIsARun | internal/modules/operatingstatus/service.go:28-48 | an undisturbed request is a run of the protocol's read and transaction |
| OperatingStatus.Service.DecideCompliance | internal/modules/operatingstatus/service.go:50-59 | decides an existing review only, to approved or to rejected with a reason |
| OperatingStatus.OneGracePerPeriod | internal/modules/operatingstatus/repository.go:125-190 | over all runs a vendor and period end earn at most one grace, and a vendor has at most one in force |
| OperatingStatus.GraceLastsToItsEnd | internal/modules/operatingstatus/repository.go:125-190 | a grace in force stays so until its end, whatever happens |
| OperatingStatus.GrantOpensTheGate | internal/modules/operatingstatus/service.go:61-133 | a grant makes an approved vendor operational at once, and for five days the vendor is operational exactly when approved with a subscription record |
| OperatingStatus.LapsedVendorsAreClosed | internal/modules/operatingstatus/service.go:61-133 | over all runs without a new billing record, a vendor whose period or trial has ended by the clock and that no grace covers is not operational, and one whose has not is as soon as it is approved |
| OperatingStatus.AccessEndsWithThePeriod | internal/modules/operatingstatus/service.go:105-133 | over all runs without a new billing record, an ACTIVE vendor with no grace in force or under way operates exactly while approved and before its period end, whatever it requests |
| Routing.ScoreCandidate | internal/modules/routing/service.go:113-159 | the accumulated score is product bonus, load score and the sum of the active rules' terms |
| Routing.RuleAddsItsPoints | internal/modules/routing/service.go:113-159 | a candidate starts with 100 for a product and 100 less 10 per active job, at least 0; an active rule adds, wherever it stands, 200 less its priority number (at least 0) for the store it targets and 25 for a satisfied load rule; an inactive one nothing |
| Routing.UrgentRulesAddMore | internal/modules/routing/service.go:113-159 | of two rules alike but for their priority the more urgent one gives its store strictly more points exactly when its number is below 200 |
| Routing.SelectBest | internal/modules/routing/service.go:75-81 | the chosen candidate is first by score descending, active jobs ascending, input order |
| Routing.AppliedRule | internal/modules/routing/service.go:84-90 | the first listed rule that targets the store, none exactly when none does |
| Routing.DecisionLog.RouteOrder | internal/modules/routing/service.go:47-106 | scores every candidate in place and appends one decision for the best one with the rule that explains it; no candidate or a failing insert, no decision |
| Routing.DecisionLog.OverrideRoute | internal/modules/routing/service.go:167-203 | needs a store and a reason; marks exactly the order's latest decision overridden, ignoring a failure to, leaves every other one, and appends the manual one unless the insert fails |
| Routing.UntargetedWinnerIsLeastBusy | internal/modules/routing/service.go:113-159 | a chosen store that no active rule targets has no more active jobs than any other candidate |
| Routing.TiesGoToMostProducts | internal/modules/routing/postgres.go:107-137 | on the repository's list an equal score goes to fewer jobs, then to more matching products |
| Routing.AppliedRuleIsMostUrgent | internal/modules/routing/postgres.go:32-49 | with rules listed by priority the recorded rule is a most urgent one that targets the store |
| Routing.OverridesReplace | internal/modules/routing/service.go:167-203 | over any history, failures included, the order's latest decision is assigned exactly when no override is left half done, and the assigned ones are those stored and not marked since |
| Routing.CompleteOverridesReplace | internal/modules/routing/service.go:167-203 | when every statement goes through, the assigned decisions number the routings, plus a first override |
| OrderTotals.BuildOrder | internal/modules/order/service.go:86-145 | exactly for carts whose every line can be sold: one line per cart item at the store's price, price times quantity, and the totals of the exact subtotal; otherwise the first bad line and what is wrong with it |
| OrderTotals.SubtotalMeans | internal/modules/order/service.go:86-118 | each line adds the store's price times its quantity to the subtotal |
| OrderTotals.TotalsMean | internal/modules/order/service.go:119-145 | for every subtotal and discount: tax 0.16 and total 1.16 times what is left after the discount, each rounded by itself, and zero when nothing is left |
| OrderTotals.Round2Means | internal/modules/order/service.go:119-145 | an amount that is not negative is rounded to the nearest hundredth, half up; below zero truncation raises it |
| OrderTotals.TotalsInCents | internal/modules/order/service.go:119-145 | for whole cents the totals are whole cents: tax is 16 percent rounded half up |
| OrderTotals.TotalsAddUp | internal/modules/order/service.go:119-145 | for every whole-cent discount, negative ones clamped, total is subtotal minus discount plus tax exactly when the discount does not exceed the subtotal |
| OrderTotals.TaxIsWithinHalfACent | internal/modules/order/service.go:119-145 | tax is within half a cent of 16 percent of what is taxed |
| OrderTotals.TotalIsMonotone | internal/modules/order/service.go:119-145 | a higher subtotal or a smaller discount never lowers the total |
| OrderTotals.AddingALineNeverLowersTheTotal | internal/modules/order/service.go:86-145 | for whole-cent prices the total never falls when a line is added |
| OrderTotals.CartTotalsAddUp | internal/modules/order/service.go:86-145 | the sum law and the tax bound for every cart of whole-cent prices and whole-cent discount |
| Orders.Service.PlaceOrder | internal/modules/order/service.go:55-170 | an empty cart is refused; a used key answers with its order, or an error for another customer, and stores nothing; otherwise exactly a cart whose every line can be sold stores one pending order, with a line per item at the store's price and the totals of its lines, and nothing is stored else |
| Orders.Service.UpdateStatus | internal/modules/order/service.go:188-212 | moves the order exactly along the six allowed changes and adds the new status to its history, nothing else |
| Orders.Service.CancelOrder | internal/modules/order/service.go:214-223 | cancels exactly PENDING and CONFIRMED orders |
| Orders.OneOrderPerKey | internal/modules/order/service.go:158-168 | however calls race, all that succeed under one key got one and the same order, of one customer |
| Orders.StoredTotalsAreTheirLines | internal/modules/order/service.go:86-145 | however calls race, every stored order has sound lines and the totals of its own lines |
| Orders.MoveKeepsTrail | internal/modules/order/service.go:46-53 | a status write keeps the lifecycle exactly when the status it overwrites allows the move |
| Orders.LifecycleHoldsExactly | internal/modules/order/service.go:188-223 | over interleaved status calls, all orders keep the lifecycle throughout a run exactly when every write finds a status that allows it |
| Orders.LifecycleFollowsTheMainLine | internal/modules/order/service.go:46-53 | in such runs every order follows the main line; a delivered one passed through all of it, a cancelled one never reached production |
| Orders.UninterruptedIsFresh | internal/modules/order/service.go:188-223 | with each status call one step every write finds a status that allows it |
| Orders.CancelledOrderConfirmed | internal/modules/order/service.go:188-223 | after any run with a pending order, a racing confirmation and cancellation can leave it confirmed after cancelled |
| Orders.PendingIsReachable | internal/modules/order/service.go:55-170 | every good cart has a run that leaves its order pending, so such races exist |
| PolicyConsent.CheckAcceptance | internal/modules/policyconsent/service.go:96-117 | which error each request gets; with distinct slugs and no blanks it passes exactly the rearrangements of the published pairs |
| PolicyConsent.ListsMatchExactly | internal/modules/policyconsent/service.go:99-117 | the pigeonhole: equal length, distinct slugs and every published pair received mean the same multiset of pairs, and conversely |
| PolicyConsent.ExactAcceptance | internal/modules/policyconsent/service.go:99-117 | acceptance is exact for all requests exactly when the published slugs are distinct and no slug or version is blank |
| PolicyConsent.PolicyIdsToSet | internal/modules/policyconsent/repository.go:156-162 | the set holds exactly the listed ids |
| PolicyConsent.MissingPolicies | internal/modules/policyconsent/repository.go:164-173 | the policies not accepted, in published order |
| PolicyConsent.EachPolicyIsInOneList | internal/modules/policyconsent/repository.go:164-173 | accepted slugs and missing policies split the published list, each in published order |
| PolicyConsent.Service.GetStatus | internal/modules/policyconsent/service.go:32-57 | acceptance is required exactly when some published policy has no consent in force, exactly when fewer slugs are accepted than required; the accepted slugs are those of published policies with a consent in force |
| PolicyConsent.Service.HasRequiredAcceptance | internal/modules/policyconsent/service.go:59-65 | true exactly when the user holds a consent for every published policy |
| PolicyConsent.Service.Store | internal/modules/policyconsent/repository.go:82-119 | consents and events of all policies are written together, or none when any statement or the commit fails |
| PolicyConsent.Service.Accept | internal/modules/policyconsent/service.go:79-123 | writes exactly when the request passes and the transaction holds; afterwards nothing of the same published policies remains to accept |
| PolicyConsent.RecordedAt | internal/modules/policyconsent/repository.go:89-117 | a batch writes the rows of its user's listed policies, each with a listed version and an event, and no others |
| PolicyConsent.LastListedWins | internal/modules/policyconsent/repository.go:89-106 | of a policy listed twice the last version is stored, for the given vendor and time, not withdrawn |
| PolicyConsent.OneEventPerPolicy | internal/modules/policyconsent/repository.go:107-115 | a batch logs exactly one ACCEPTED event for each of its policies |
| PolicyConsent.NothingAcceptedIsAskedAgain | internal/modules/policyconsent/service.go:32-57 | a policy once accepted by a user is never missing again, whatever calls follow and whatever is published |
| PolicyConsent.ConsentsWereGiven | internal/modules/policyconsent/repository.go:82-119 | every consent on record was sent by its user, in that version, in a request that passed, and is logged by an event; and conversely |
| DeliveryLocations.NormaliseIdempotent | internal/modules/delivery/service.go:128-138 | cleaning a request twice is cleaning it once |
| DeliveryLocations.Service.ValidateRequest | internal/modules/delivery/service.go:128-152 | leaves every field trimmed, the country "Zambia" if blank, and the rest as it was; accepts exactly when label, recipient, phone, first address line and city are there and the coordinates are paired and in range |
| DeliveryLocations.Repository.SetDefault | internal/modules/delivery/postgres.go:118-148 | the customer's default becomes this location and no other, every other column and row kept; a location the customer does not own changes nothing |
| DeliveryLocations.Repository.PromoteEarliestAsDefault | internal/modules/delivery/postgres.go:150-162 | an earliest location of the customer becomes default, whichever of equally early ones; never a second default |
| DeliveryLocations.Service.CreateLocation | internal/modules/delivery/service.go:36-73 | goes through exactly for an acceptable request whose statements hold; the new location is default exactly when asked for or first |
| DeliveryLocations.CreateAdds | internal/modules/delivery/service.go:36-73 | a creation adds one row with the cleaned details, default exactly when asked for or first, and then no other of the customer is; nothing else changes |
| DeliveryLocations.Service.UpdateLocation | internal/modules/delivery/service.go:75-102 | goes through exactly for an acceptable request on an owned location whose statements hold; it gets the cleaned details and becomes default when asked, and never stops being default |
| DeliveryLocations.UpdateChanges | internal/modules/delivery/service.go:75-102 | an update changes the details of its row, makes it default if asked and then no other of the customer, and changes nothing else |
| DeliveryLocations.Service.DeleteLocation | internal/modules/delivery/service.go:104-116 | removes an owned location; if it was the default and others remain, one of them is the only default and none is earlier |
| DeliveryLocations.Service.SetDefaultLocation | internal/modules/delivery/service.go:118-126 | works exactly on an owned location |
| DeliveryLocations.OtherCustomersKeepTheirs | internal/modules/delivery/postgres.go:74-162 | no call adds, removes or changes a row of another customer |
| DeliveryLocations.StepSettles | internal/modules/delivery/service.go:36-126 | a call leaves every customer with locations a default exactly when it is not cut between the two writes that must go together |
| DeliveryLocations.AtMostOneDefault | migrations/000031_add_delivery_locations_and_store_coordinates.up.sql:56-58 | no run, cut calls included, gives a customer two defaults, and stored details are always cleaned and acceptable |
| DeliveryLocations.ExactlyOneDefault | internal/modules/delivery/service.go:36-126 | while no call is cut short, a customer with any location has exactly one default |
| DeliveryLocations.DeletingChangesNothingElse | internal/modules/delivery/postgres.go:95-116 | deleting the default leaves exactly one default among the locations left, if any, and changes nothing else about them |

## Left out

- OutboxWorker.Worker.ProcessOnce: one poll of a worker that nobody interrupts; the endless poll loop of `Run` and its cancellation are not a method here, but the protocol's runs let polls, crashes and other workers follow in any order.
- OutboxTable.SelectBatch: the claim's `FOR UPDATE SKIP LOCKED` is a set of rows skipped, and claim and return are one step.
- NotificationDelivery.DeliveredReachesEveryChannel: the send of one channel is one step there (its own steps interleave in `CommsKeys`), the payload decoder is a parameter, and notifications do not change after they are stored.
- CommsKeys.AtMostOneCallPerKey: `SendEvent` passes no key, so events are delivered at least once per channel and this result does not speak of them.
- WalletRuns.RunFromKeepsInv: accounts are opened by a step and never change owner, currency or state; withdrawals, fee policies and reconciliation are not modelled, nor the blank padding of a currency shorter than its column.
- WalletRuns.StepAppends: the triggers that refuse updates and deletes of journals and entries are not modelled, since no modelled step attempts one.
- WalletPosting.ValidatePosting: text is ASCII and lengths are counted in characters, which for ASCII are the bytes the source counts.
- CheckoutService.Service.VerifySubscriptionCheckout: the caller without a vendor, through the reference, is a step of `CheckoutProtocol` only, as are mobile-money initiation and its phone and operator checks, which are left out.
- SubscriptionSafety.RecordsAgreeExactly: status calls read and write in separate steps; creation, tier change and invoice generation are one step each, as their inserts fail on a unique column and a tier change writes no status.
- SubscriptionSafety.OnlyPaymentRevives: at most one subscription per vendor is built into the table, which is keyed by vendor as its unique column makes it.
- Billing months and years are fixed lengths and a day is 24 hours; calendar arithmetic is left out.
- Invoice line items and notes, tier prices as rows and the unused renewal and expiry queries of billing are left out.
- OperatingStatus.Service.DecideCompliance: the reviewer, the review time and the stored reason are not kept.
- Routing.DecisionLog.RouteOrder: the text of reasons and rule names are left out; scores are whole numbers, as every term is.
- OrderTotals.BuildOrder: exact arithmetic in place of floating point; stock, order numbers and customisation are left out.
- Orders.Service.PlaceOrder: the store, channel and currency of an order are left out, and the prices of one cart are read at once.
- Orders.OneOrderPerKey: a lookup that fails for another reason than a missing row ends the call without effect and is not a step.
- PolicyConsent.Service.Accept: the published list is an input, since policies are published outside this code; addresses, user agents and sources of a consent are left out, and nothing withdraws a consent.
- PolicyConsent.ConsentsWereGiven: a policy is known by its id; a version edited in place under one id is not seen by `GetStatus` and not modelled.
- DeliveryLocations.ExactlyOneDefault: calls of one customer do not overlap; coordinates are real numbers.
- DeliveryLocations.Service.CreateLocation: failing reads after the last write change only the answer and are left out.
- HTTP handlers, authentication, uuid parsing, process startup, the provider clients and adapters themselves are left out.
- Point of sale, production, attendance, inventory, catalogue, zones, conversations, one-time codes, the payment gateway service and administration are outside the scope of this model.
