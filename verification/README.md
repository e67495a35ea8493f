# Payment command protocol

A verified model of a payment gateway and the bank behind it. The gateway turns idempotent HTTP commands (authorize,
retry, capture, void, refund) into bank calls and keeps two tables: payments and idempotency records. The question it
answers is whether a retry is ever a second charge, over every interleaving of concurrent requests, crashes, stalls,
stuck-claim takeovers, stale completions, lost replies and lost cache entries.

`dafny verify dfyconfig.toml` verifies the project.

## How it is built

| files | content |
|---|---|
| `Text`, `Domain`, `Loading`, `Commands`, `Fingerprints`, `Errors`, `Luhn` | strings, payments and their loader, commands and fingerprint texts, error kinds, the card check |
| `Bank`, `Balances`, `Client`, `Store` | the ledger, conservation of money, how replies are read, what each store method does to the tables |
| `Protocol` | the transition system: tables, workers, calls, ledger and cache; the names issued so far, which new names must avoid; and history that no step reads (pinned keys, origins of entries, leases, status trails) |
| `Invariants`, `Stability`, `Transitions`, `WorkerSteps`, `BankSteps`, `StoreSteps`, `ClaimSteps` | the inductive invariant and its preservation by every step |
| `Runs`, `Safety`, `History`, `Replays`, `Money`, `Leases` | what holds in every reachable state and along every run |
| `Claims`, `Verdicts`, `Testimony` | what every claim and completion comes to, when the bank says what, and that everything workers report is true |
| `Deliveries`, `Paths`, `CommandPaths` | one command run undisturbed, as a function, and as a path of the transition system |
| `Progress`, `Endings`, `Witnesses`, `Crossings`, `OpenClaims`, `Strandings`, `Settlements` | what runs can do: commands that complete, or end in every other way, and the exact conditions of the findings below |
| `PaymentObject`, `PaymentStore`, `PaymentService`, `BankClient`, `BankService`, `ResponseCache` | the objects that the source mutates, each method proved against the functions above |

Each store method, each bank transaction, each cache lookup and each cache write is one step. A worker that is never
scheduled again has crashed; a call that is never scheduled again was lost. The bank or the gateway may commit without
the acknowledgement arriving; the bank may fail before its ledger; cache entries may vanish at any time.

Assumptions, all visible as parameters or predicates:

- The keyed digest behind fingerprints is collision-free and renders as visible text (`ValidConfig`).
- Generated payment ids and bank operation keys are new names; a ledger id may collide, and then the insert fails.
- One gateway clock and one bank clock, each monotone. A worker's clock reading lies between its start and the present.
- Accounts open with equal, non-negative balances.
- Theorems about timely runs add timing: claims, completions and releases land before the request's deadline
  (`Timely`), and, where stated, stuck-after exceeds the command timeout (`LeaseOutlastsCommand`).

Four findings, each with its exact condition:

- Order and customer ids may contain a newline, and then different orders can share a fingerprint
  (`OrdersCanCollide`). They cannot if and only if no newline stands between visible characters
  (`OrderAndCustomerDecode`). Amount and card are always determined.
- A release names no owner and a completion checks only key, fingerprint and progress. Workers that keep their
  deadlines never meet or cross each other's claims if and only if stuck-after exceeds the command timeout
  (`LeaseSafetyExact`), which is the start-up check of the configuration. Workers that ignore their deadlines can
  always cross outcomes (`StaleCompletionCrosses`). The one-debit and agreement theorems need no timing at all.
- `gateway/CONTEXT.md` says that a finished attempt never leaves its claim open. The code returns from a failed
  completion without a release. `ClaimLeftOpen` gives the exact condition and `AttemptsDoLeaveClaimsOpen` a run;
  `RecoveryComplete` says what a takeover of such a claim does.
- A capture whose reply is lost can leave a debit at the bank that the gateway never records (`DebitsDoStrand`,
  `StrandedForever`). It can still be settled if and only if some reply is remembered, can still be remembered, or is
  known or due to a worker within its deadline (`DebitSettlesExactly`). It is never a second debit.

## Model

| member | source | states |
|---|---|---|
| Runs.StepInv | gateway/internal/postgres/payment_store.go:66-220 | Every step of every worker, of the store, of the bank and of its cache keeps the protocol invariant: rows the table accepts, pinned bank keys, calls fixed by their payment, a consistent ledger, replies that are true, statuses that are true at the bank, coherent records and status histories. |
| Runs.ReachableInv | gateway/internal/app/payment_service.go:362-717 | Every state of every run satisfies that invariant, however the workers, calls, crashes, stalls and takeovers interleave. |
| Runs.RunLater | gateway/internal/postgres/payment_store.go:656-674 | Between any two states of a run, payments only move forward with their identity and bank results kept, pinned keys never change, and the ledger is only extended. |
| Safety.AtMostOneDebit | gateway/internal/app/payment_service.go:512-586 | In every reachable state a payment has caused at most one capture at the bank, of exactly its own amount and on its stored hold, and at most one refund, of that capture and of the same amount. |
| Safety.DebitsHavePayments | mock-bank/bank/internal/service/capture.go:60-135 | Every capture in the ledger is the only capture of some gateway payment, so no debit lacks a payment and no two debits share one. |
| Safety.GatewayAndBankAgree | gateway/internal/domain/payment.go:431-563 | In every reachable state each status is true at the bank: captured means exactly the stored capture and no void, voided exactly the stored void and no capture, refunded exactly one capture and one refund, expired and declined no capture, any held payment a hold of its amount and expiry, and no payment ever has both a capture and a void, whatever its row says. |
| Safety.NothingShared | mock-bank/bank/internal/middleware/idempotency.go:57-117 | The bank entries that one row names (hold, capture, void, refund) are all made for its own payment, and are neither named by another row nor among the entries made for another payment, although the bank answers from a cache keyed by operation key. |
| Safety.ExpiredNeverCaptured | mock-bank/bank/internal/service/capture.go:67-87 | Once a payment is recorded as expired it stays expired, and its hold is not captured in any continuation of the run. |
| Safety.OneKeyOneBody | gateway/internal/postgres/payment_store.go:510-571 | Two bank calls carry the same operation key if and only if they are for the same payment and operation, and then their bodies agree, apart from the card security code. |
| Safety.RowsLoadBack | gateway/internal/postgres/payment_store.go:746-846 | Every reachable row, read back through the NULL conversions and the strict loader, is the payment that was stored. |
| History.RecoveryComplete | gateway/internal/postgres/payment_store.go:573-601 | In every reachable state, taking over a stuck claim fails exactly when the payment has left the expected status, and then with a status conflict; otherwise it returns the record's payment with the bank key pinned first. The missing-payment, missing-key, other-payment and other-card errors are unreachable. |
| History.CompletionLosesNothing | gateway/internal/postgres/payment_store.go:656-706 | A completion whose guards pass overwrites the row from a claim-time snapshot without losing identity, hold, capture or any operation key that can still be used; a pending payment that stays pending is not changed at all, and no other row is. |
| History.StatusHistory | gateway/internal/domain/payment.go:431-563 | A payment's persisted status changes form a path of the lifecycle from pending to its current status, at most three long, no change twice. |
| History.StatusChangesAreCompletions | gateway/internal/postgres/payment_store.go:179-204 | Any step that changes a payment's status is one successful completion, along one lifecycle edge, which turns its own open record into a completed one whose stored answer shows the new row field by field, in the same step. |
| History.StoredOutcomesCoherent | gateway/internal/postgres/payment_store.go:708-744 | A completed record stores authorization_expired exactly when its snapshot is expired, which only captures and voids reach, and nothing otherwise; the stored answer has the row's order, customer, amount, currency and creation time, a status from which the row's is reachable, and, while the statuses are equal, the row's reason, expiry and time of update. |
| Replays.StoredForTheWindow | gateway/internal/postgres/payment_store.go:306-328 | A stored outcome survives every step of a run, cleanup included, until 24 hours after its completion. |
| Replays.ReplayFidelity | gateway/internal/app/payment_service.go:740-770 | After a completion takes effect, acknowledged or not, every worker that repeats its key and fingerprint within 24 hours ends in the outcome that the completion stored, failures included, with tables, calls and bank untouched; if it was acknowledged, that is the outcome the first worker reported. |
| Money.MoneyConserved | mock-bank/bank/internal/repository/account.go:132-155 | In every reachable state of the whole system, available = balance - active holds, balance = opening - captures + refunds, and 0 <= available <= balance <= opening. |
| Leases.OneLiveHolder | gateway/cmd/payment-gateway/config.go:326-328 | If stuck-after exceeds the command timeout and store writes land before their deadlines, at most one worker within its deadline holds any operation and key; `LeaseSafetyExact` adds the converse. |
| Leases.ReleaseDeletesOwnClaim | gateway/internal/postgres/payment_store.go:206-220 | Under the same assumption a release deletes exactly the releasing worker's own open claim on its own payment, although the statement does not name an owner. |
| Leases.CompletionMeetsNoConflict | gateway/internal/postgres/payment_store.go:717-742 | Under the same assumption a completion never meets an idempotency conflict: it succeeds exactly when the row still has the status the command started from, and otherwise fails with a status conflict. |
| Leases.OutcomesAreOwn | gateway/internal/postgres/payment_store.go:717-734 | Under the same assumption a stored outcome is always about the payment that its record was opened for. |
| Leases.OwnersAreSpaced | gateway/internal/postgres/payment_store.go:409-443 | With no timing assumption, successive owners of one record are at least stuck-after apart. |
| Claims.ClaimMeetsRecord | gateway/internal/postgres/payment_store.go:348-407 | In every reachable state a claim under a key with a record is decided by the record: another request ends with an idempotency conflict, and the same request with the stored outcome, with in-progress while the claim is younger than stuck-after, or by taking the claim over, unless the payment has moved on. Except in a takeover, tables, calls and bank are untouched. |
| Claims.AuthorizationStarts | gateway/internal/postgres/payment_store.go:66-118 | An authorization under a free key starts exactly the payment it was asked for: order, customer, amount, currency, card fingerprint, times and a new operation key, and nothing else on it. |
| Claims.ClaimMeetsPayment | gateway/internal/postgres/payment_store.go:122-177 | A command on an existing payment under a free key: an unknown payment is not found, another status or another card is a status conflict, and otherwise the payment's one operation key is kept, or pinned if missing, and a record opened. |
| Claims.RecoveryVerdict | gateway/internal/postgres/payment_store.go:573-601 | For every table, the exact condition of each outcome of a takeover, in the order of the checks. |
| Claims.CompletionVerdict | gateway/internal/postgres/payment_store.go:179-204 | For every table, the exact condition of each error of a completion; an error changes nothing. |
| Claims.CompletionComesTo | gateway/internal/postgres/payment_store.go:179-204 | With no timing assumption, a completion in a reachable state fails with a status conflict exactly if the payment has moved on, else with an idempotency conflict exactly if its record is gone, taken or answered; otherwise row and record change together and the answer shows the payment field by field. |
| Claims.RepetitionsAnswered | gateway/internal/app/payment_service.go:740-770 | Within 24 hours of a completion, a claim under its key ends with the completed payment, or its expiry, if it makes the same request, and with an idempotency conflict if not; either way no payment is opened, no table changes and no call is made. |
| Claims.CleanupIsExact | gateway/internal/postgres/payment_store.go:306-326 | A clean-up step removes exactly the records completed more than 24 hours before its time. |
| Testimony.AnswersAreTrue | gateway/internal/app/payment_service.go:864-877 | In every reachable state, every success given to a caller is about what the caller asked for, with the row's order, customer, amount, currency and creation time, a status that the operation can end in and that the row has reached or passed, and, while the row has that status, the row's reason, expiry and time of update. |
| Testimony.ExpiriesAreTrue | gateway/internal/app/payment_service.go:541-586 | Only a capture is ever told that the authorization expired, and then the payment it named has expired. |
| Testimony.ReleasesAreTrue | gateway/internal/app/payment_service.go:416-433 | No authorization lets its claim go for an unknown outcome, only because the bank refused its card; other commands let go only for an unknown outcome or a refusal that the bank did make; no transition ever fails. |
| Testimony.DeclinesAreTrue | gateway/internal/mockbank/client.go:120-207 | A declined payment was refused by the bank for the recorded reason: expired card or insufficient funds. |
| Testimony.AtMostTwoAttempts | gateway/internal/mockbank/client.go:439-462 | No worker asks the bank more than twice under one claim. |
| Verdicts.AuthorizeVerdict | mock-bank/bank/internal/service/authorization.go:33-134 | The exact condition of every reply to an authorization, in the order of the checks; approved if and only if number, CVV form, account, CVV, expiry, amount and funds are all right and the new id is free. |
| Verdicts.GoodThroughItsMonth | mock-bank/bank/internal/service/validators.go:45-65 | A card is good until the end of its month. |
| Verdicts.CaptureVerdict | mock-bank/bank/internal/service/capture.go:60-135 | The exact condition of every reply to a capture: unused, in time and for the hold's own amount. |
| Verdicts.VoidVerdict | mock-bank/bank/internal/service/void.go:60-134 | The exact condition of every reply to a void: unused, expired or not. |
| Verdicts.RefundVerdict | mock-bank/bank/internal/service/refund.go:60-121 | The exact condition of every reply to a refund: a capture, its own amount, not refunded yet. |
| Verdicts.HoldsAreVouched | mock-bank/bank/internal/service/authorization.go:64-95 | Every hold in a reachable ledger was made by a call with a valid number and the CVV of that number's account, for the hold's amount and with the card of the payment's fingerprint. |
| Progress.VoidCanComplete | gateway/internal/app/payment_service.go:588-660 | The same for a void of an authorized payment whose hold nobody has used, expired or not; exactly its amount becomes available again and no balance moves. |
| Progress.OpenHoldVoids | mock-bank/bank/internal/service/void.go:60-134 | An unused hold, expired or not, can be voided, and that makes its amount available and changes no balance and no other account. |
| Endings.DeclineCanComplete | gateway/internal/app/payment_service.go:435-446 | An authorization with the account's own card is declined as expired if the card is, else as lacking funds if they are; the declined payment is the caller's and the stored answer, and no money moves. |
| Endings.UnknownCanComplete | gateway/internal/app/payment_service.go:416-427 | An authorization whose attempts are all lost, injected failures or unacknowledged commits completes with the pending payment it started, stored and shown to the caller. |
| Endings.UnknownReleases | gateway/internal/app/payment_service.go:541-552 | Every other command that ends so is released with the kind of its last attempt or of the cut wait; the payment keeps its status and its pinned key, and the idempotency key is free. |
| Endings.LapsedCaptureExpires | gateway/internal/app/payment_service.go:541-570 | A capture of a hold that nobody used in time expires the payment, stores the failure for repetitions and moves no money. |
| Endings.WrongCardIsRefused | gateway/internal/app/payment_service.go:429-433 | An authorization with a number, account or CVV that is not right ends as invalid input: no hold, a pending payment, a free key. |
| Endings.SpentIsRefused | gateway/internal/app/payment_service.go:541-552 | A capture, void or refund of what the bank has already given, with no remembered reply, ends as a conflict with the bank's state; nothing moves and the key is free. |
| Endings.LostReplyIsRetried | gateway/internal/mockbank/client.go:439-462 | A capture whose first reply is lost is answered from the bank's memory at the second attempt: the row names the one capture that was made, and exactly its amount leaves the account. |
| Client.RefusalsReadExactly | gateway/internal/mockbank/client.go:120-437 | For every route and code, what a refusal reads as. |
| Client.SuccessesReadExactly | gateway/internal/mockbank/client.go:120-437 | A success is believed exactly on its own route and with its identifiers; anything else counts as an unavailable bank. |
| Deliveries.DeliveriesRepeat | mock-bank/bank/internal/middleware/idempotency.go:57-117 | A remembered success is repeated unchanged; a delivery without a key is neither answered from memory nor remembered; only successes are remembered, and only once. |
| Commands.ConstructorsExact | gateway/internal/app/payment_commands.go:45-138 | The constructors accept exactly the inputs whose trimmed texts are present and valid, and return the requested operation with each text in its own place. |
| Text.TrimSpaceExact | gateway/internal/app/payment_commands.go:45-60 | Trimming removes the whitespace at both ends, all of it, and nothing else. |
| Text.DecimalReadsBack | gateway/internal/app/payment_service.go:803-817 | A rendered number reads back as itself, without leading zeros. |
| Luhn.SumIsTheStandards | mock-bank/bank/internal/service/validators.go:9-43 | The check's sum is the standard's: from the right, every second digit doubled, the digits of all added. |
| Domain.ReachesIsClosure | gateway/internal/domain/payment.go:431-563 | The status order that the theorems use is exactly the reflexive transitive closure of the lifecycle's edges. |
| Crossings.LeaseSafetyExact | gateway/cmd/payment-gateway/config.go:326-328 | For every configuration with a non-negative timeout, each of three properties of timely runs holds if and only if stuck-after exceeds the command timeout: one live holder per key, no idempotency conflict for a completion, every stored outcome about its own payment. |
| Crossings.StaleCompletionCrosses | gateway/internal/postgres/payment_store.go:709-742 | In every configuration a worker that ignores its deadline can cross outcomes: a reachable state has a completed record whose stored payment is not the record's payment. |
| OpenClaims.ClaimLeftOpen | gateway/CONTEXT.md:155-156 | In timely runs with claims that outlast commands, a step that finishes a worker holding a claim is that worker's completion, release or error, and it leaves the claim open if and only if the payment has left the status that the completion expects, the release does not land, or an error ends the attempt before either. |
| OpenClaims.AttemptsDoLeaveClaimsOpen | gateway/internal/app/payment_service.go:416-446 | A reachable state, also in timely runs, with a finished attempt whose claim is open: an authorization that lost its answer completes after a retry has authorized the payment. |
| Strandings.StrandedForever | mock-bank/bank/internal/middleware/idempotency.go:57-117 | Once no reply to a captured hold is remembered, about to be remembered, or known or due to a worker that may still write, the row stays authorized in every continuation while the bank keeps exactly one capture. |
| Settlements.DebitCanSettle | mock-bank/bank/internal/middleware/idempotency.go:75-114 | While the reply is remembered or a handler can still store it, a capture under any unused key leads to a captured row without touching the ledger. |
| Settlements.DebitSettlesExactly | gateway/internal/app/payment_service.go:512-586 | In timely runs with claims that outlast commands, a captured hold whose row is still authorized can be settled by some continuation if and only if it is not stranded. |
| Settlements.DebitsDoStrand | mock-bank/bank/internal/service/capture.go:60-135 | From every reachable state, an open hold that nobody has tried to capture can be stranded: the bank commits and its acknowledgement is lost. |
| Progress.AuthorizeCanComplete | gateway/internal/app/payment_service.go:362-446 | From every reachable state, also by timely steps, an acceptable authorization with an unused key for a known card with enough funds leads to an authorized row with the command's order, customer and amount and an open hold of that amount, which lowers the available balance by exactly that; the caller's and the stored answer show the row. |
| Progress.RetryCanComplete | gateway/internal/app/payment_service.go:448-510 | The same for a retry of a pending payment; other workers and records are untouched. |
| Progress.CaptureCanComplete | gateway/internal/app/payment_service.go:512-586 | From every reachable state, whatever else is under way and also by timely steps, an authorized payment whose hold is open can be captured under any unused key; exactly its amount leaves the account, and the row can then be refunded. |
| Progress.RefundCanComplete | gateway/internal/app/payment_service.go:662-717 | The same for the refund of a captured payment; exactly the captured amount comes back. |
| Witnesses.LifeOfAPayment | gateway/internal/app/payment_service.go:362-717 | In every configuration with an account that can pay, one run, timely or not, leads from the first state to an authorized, a captured and a refunded payment, and another from the authorized to a voided one. |
| Witnesses.RunsExist | gateway/internal/app/payment_service.go:52-100 | For every stuck-after, timeout and hold duration there is a configuration that meets the assumptions and has reachable and timely-reachable states with an open hold, with a captured, with a refunded and with a voided payment. |
| CommandPaths.RanIsAPath | gateway/internal/app/payment_service.go:362-717 | A command that runs undisturbed is a path of the transition system, every step enabled, through claim, send, lookup, execution, caching, receipt or loss, retry, and completion or release, and ends in the tables, bank and outcome of `Ran`. |
| CommandPaths.DeliveryPath | mock-bank/bank/internal/middleware/idempotency.go:57-117 | One delivery, cache failures, injected failures and unacknowledged commits included, is Lookup, Execute and CacheReply of the transition system. |
| CommandPaths.DeletionIsEviction | mock-bank/bank/internal/repository/idempotency.go:83-100 | Whatever the cache's clean-up forgets, a step of the transition system forgets, so the run theorems hold with clean-up at any time. |
| Progress.OpenHoldCaptures | mock-bank/bank/internal/service/capture.go:60-135 | An active, unexpired hold can be captured for its amount, and that takes the amount off the account's balance. |
| Loading.LoadsBack | gateway/internal/domain/payment.go:112-315 | A payment written to its row loads back unchanged if and only if its strings are normalized and its private fields fit its status. |
| Loading.NewPaymentExact | gateway/internal/domain/payment.go:317-430 | The validating constructor returns its input unchanged exactly for normalized input whose hold and expiry come together. |
| Transitions.AuthorizedOk | gateway/internal/domain/payment.go:431-451 | Authorizing an acceptable payment yields one that the table accepts, on the pending-authorized edge, with identity kept. |
| Transitions.DeclinedOk | gateway/internal/domain/payment.go:467-483 | Declining yields a payment that the table accepts, on the pending-declined edge, with identity kept. |
| Transitions.ExpiredOk | gateway/internal/domain/payment.go:453-465 | Expiring yields a payment that the table accepts, on the authorized-expired edge, with identity and hold kept. |
| Transitions.CapturedOk | gateway/internal/domain/payment.go:485-502 | Capturing does not check the capture key; its result is acceptable to the table if and only if that key was set before. |
| Transitions.VoidedOk | gateway/internal/domain/payment.go:516-533 | Voiding: its result is acceptable to the table if and only if the void key was set before. |
| Transitions.RefundedOk | gateway/internal/domain/payment.go:547-563 | Refunding: its result is acceptable to the table if and only if the refund key was set before. |
| Transitions.EnsuredOk | gateway/internal/postgres/payment_store.go:510-571 | Pinning a key on a payment in the right status always succeeds, keeps an existing key, and changes nothing but that key. |
| Transitions.NewPendingOk | gateway/internal/domain/payment.go:82-110 | An accepted authorization always yields a pending payment that the table accepts, with exactly the given fields. |
| Fingerprints.AuthorizeTextDecodes | gateway/internal/app/payment_service.go:803-817 | Equal authorization texts have equal amount, card number and expiry, and the same order and customer joined by a newline. |
| Fingerprints.OrderAndCustomerDecode | gateway/internal/app/payment_service.go:803-817 | The text determines order and customer if and only if neither holds a newline between two visible characters. |
| Fingerprints.OrdersCanCollide | gateway/internal/app/payment_service.go:803-817 | Two accepted authorizations with different orders and equal texts. |
| Fingerprints.SameTextSameOperation | gateway/internal/app/payment_service.go:819-849 | Texts of different operations never coincide. |
| Fingerprints.SameTextSameRequest | gateway/internal/app/payment_service.go:803-849 | Two texts are equal if and only if the requests are the same: the same operation and payment, or the same amount and the same order and customer joined by a newline, and the same card where there is one; keys and CVVs take no part. |
| Fingerprints.CardTextDecodes | gateway/internal/app/payment_service.go:851-862 | The card text determines card number and expiry. |
| Fingerprints.RequestTextIsNotCardText | gateway/internal/app/payment_service.go:803-862 | No request text is ever a card text, so the two kinds of fingerprint never coincide. |
| Bank.HandleKeepsLedger | mock-bank/bank/internal/service/void.go:60-134 | Whatever is requested, a hold is used at most once and a capture refunded at most once, references and statuses stay consistent, and entries are only added. |
| Balances.HandleConserves | mock-bank/bank/internal/service/refund.go:60-121 | Whatever is requested, both balances of every account stay what the ledger implies. |
| Balances.ConservedBounds | mock-bank/bank/internal/service/authorization.go:97-102 | A consistent ledger with conserved money keeps 0 <= available <= balance <= opening balance. |
| BankSteps.HandleNeverCapturesLate | mock-bank/bank/internal/service/capture.go:82-87 | No request captures a hold whose expiry has passed. |
| Luhn.ValidateLuhn | mock-bank/bank/internal/service/validators.go:9-43 | The right-to-left loop accepts exactly the strings with 13 to 19 digits whose Luhn sum is divisible by ten, and tells length errors from checksum errors. |
| Luhn.SingleDigitErrorRejected | mock-bank/bank/internal/service/validators.go:9-43 | Changing one digit of an accepted number makes it rejected. |
| Luhn.TranspositionRejected | mock-bank/bank/internal/service/validators.go:9-43 | Swapping two adjacent different digits of an accepted number makes it rejected if and only if they are not 0 and 9. |
| PaymentObject.Payment.MarkAuthorized | gateway/internal/domain/payment.go:431-451 | In place and all or nothing: only a pending payment, with a non-blank hold id, a time and an expiry, becomes authorized; the first failed check, in the source's order, is the reported error. |
| PaymentObject.Payment.MarkExpired | gateway/internal/domain/payment.go:453-465 | Only an authorized payment expires, and loses its capture and void keys; a refusal assigns nothing. |
| PaymentObject.Payment.MarkDeclined | gateway/internal/domain/payment.go:467-483 | Only a pending payment is declined, only with a reason, and ends without hold and expiry; a refusal assigns nothing. |
| PaymentObject.Payment.MarkCaptured | gateway/internal/domain/payment.go:485-502 | Only an authorized payment is captured; it keeps its capture key, set or not, and loses its void key; a refusal assigns nothing. |
| PaymentObject.Payment.MarkVoided | gateway/internal/domain/payment.go:516-533 | Only an authorized payment is voided; it keeps its void key, set or not, and loses its capture key; a refusal assigns nothing. |
| PaymentObject.Payment.MarkRefunded | gateway/internal/domain/payment.go:547-563 | Only a captured payment is refunded, with every key kept; a refusal assigns nothing. |
| PaymentObject.Payment.SetCaptureKey | gateway/internal/domain/payment.go:504-514 | Sets the trimmed capture key of an authorized payment and nothing else, or refuses. |
| PaymentObject.Payment.SetVoidKey | gateway/internal/domain/payment.go:535-545 | Sets the trimmed void key of an authorized payment and nothing else, or refuses. |
| PaymentObject.Payment.SetRefundKey | gateway/internal/domain/payment.go:565-575 | Sets the trimmed refund key of a captured payment and nothing else, or refuses. |
| PaymentStore.PaymentStore.FindPayment | gateway/internal/postgres/payment_store.go:746-846 | Finds exactly the stored payment, which always loads. |
| PaymentStore.PaymentStore.RecoverIdempotencyClaim | gateway/internal/postgres/payment_store.go:409-443 | Refreshes the claim and returns its payment exactly when the record is in progress, has the fingerprint and is old enough. |
| PaymentStore.PaymentStore.ClaimIdempotency | gateway/internal/postgres/payment_store.go:348-407 | By what the table holds: no record is acquired; a record of another request is a conflict, whatever its progress; an open record of the same request is recovered if it is old enough and otherwise in progress elsewhere; a completed one answers with what it stores. Only the first and the recovered change the table. |
| PaymentStore.PaymentStore.InsertPayment | gateway/internal/postgres/payment_store.go:605-654 | Inserts the payment unless its id exists or the table's check refuses it, and keeps every row loadable. |
| PaymentStore.PaymentStore.EnsureBankOperationKey | gateway/internal/postgres/payment_store.go:510-571 | Pins the key through the payment object and writes that one column. |
| PaymentStore.PaymentStore.AcquireExisting | gateway/internal/postgres/payment_store.go:151-161 | Checks status and card, then pins the key; a refusal changes no row. |
| PaymentStore.PaymentStore.RecoverExisting | gateway/internal/postgres/payment_store.go:573-601 | The recovery checks in the source's order; `RecoveryVerdict` gives the exact condition of each outcome. |
| PaymentStore.PaymentStore.ClaimAuthorizationStart | gateway/internal/postgres/payment_store.go:66-118 | Both tables and the outcome are those of the claim step whose outcomes `ClaimMeetsRecord` and `AuthorizationStarts` determine; a failure rolls the record back. |
| PaymentStore.PaymentStore.ClaimExistingPaymentCommand | gateway/internal/postgres/payment_store.go:122-177 | The same for commands on existing payments, with `ClaimMeetsPayment`. |
| PaymentStore.PaymentStore.PersistPaymentTransition | gateway/internal/postgres/payment_store.go:656-706 | Overwrites all but identity columns if the status is the expected one; missing row, other status and refused check are told apart. |
| PaymentStore.PaymentStore.CompleteIdempotencyRecord | gateway/internal/postgres/payment_store.go:708-744 | Completes only an open record of the same fingerprint, and only with a terminal failure kind or none. |
| PaymentStore.PaymentStore.CompletePaymentCommand | gateway/internal/postgres/payment_store.go:179-204 | Row and record change together, as in the completion step of the run theorems, or neither does; `CompletionVerdict` gives the exact condition of each error. |
| PaymentStore.PaymentStore.ReleasePaymentCommand | gateway/internal/postgres/payment_store.go:206-220 | Deletes the record exactly when it is in progress. |
| PaymentStore.PaymentStore.CleanupCompletedIdempotencyRecords | gateway/internal/postgres/payment_store.go:306-326 | Deletes exactly the completed records older than the cutoff and counts them; refuses a missing cutoff. |
| PaymentService.PaymentService.ApplyAuthorizationOutcome | gateway/internal/app/payment_service.go:791-796 | Marks the payment authorized or declined in place, or refuses. |
| PaymentService.PaymentService.AuthorizePayment | gateway/internal/app/payment_service.go:362-446 | Claim, bank client with its one retry, cached bank and completion or release, run as one: tables, bank and outcome are those of `Ran`, which `RanIsAPath` shows to be a path of the transition system; `UnknownCanComplete`, `DeclineCanComplete` and `WrongCardIsRefused` say what that comes to. |
| PaymentService.PaymentService.RetryAuthorization | gateway/internal/app/payment_service.go:448-510 | The same for a retry, where an unknown bank outcome releases. |
| PaymentService.PaymentService.CapturePayment | gateway/internal/app/payment_service.go:512-586 | The same for a capture, where a lapsed hold completes as a terminal failure. |
| PaymentService.PaymentService.VoidPayment | gateway/internal/app/payment_service.go:588-660 | The same for a void; `VoidCanComplete` says when it succeeds. |
| PaymentService.PaymentService.RefundPayment | gateway/internal/app/payment_service.go:662-717 | The same for a refund. |
| PaymentService.DecidedNormalized | gateway/internal/app/payment_service.go:541-586 | Whatever the bank answers, what a command persists is normalized. |
| BankClient.BankClient.Attempt | gateway/internal/mockbank/client.go:215-285 | One attempt against the cached bank: never delivered, delivered but not heard of, or answered and read. |
| BankClient.BankClient.RetryTransient | gateway/internal/mockbank/client.go:439-462 | A second attempt is made exactly after an unknown outcome and a wait that is not cut short; its result, or the first one's, is returned with the bank's new state. |
| BankService.BankService.Create | mock-bank/bank/internal/repository/transaction.go:35-78 | Inserts an entry unless its id or its reference and type exist. |
| BankService.BankService.UpdateStatus | mock-bank/bank/internal/repository/transaction.go:207-228 | Changes the status of an existing entry only. |
| BankService.BankService.AdjustBalances | mock-bank/bank/internal/repository/account.go:132-155 | Adds to both balances of an existing account only. |
| BankService.BankService.Authorize | mock-bank/bank/internal/service/authorization.go:33-134 | Ledger and reply of the authorization whose every reply `AuthorizeVerdict` characterizes; a refusal rolls back. |
| BankService.BankService.Capture | mock-bank/bank/internal/service/capture.go:29-135 | The same for a capture (`CaptureVerdict`), with status before expiry before amount. |
| BankService.BankService.Void | mock-bank/bank/internal/service/void.go:29-134 | The same for a void (`VoidVerdict`), which has no expiry check. |
| BankService.BankService.Refund | mock-bank/bank/internal/service/refund.go:29-122 | The same for a refund (`RefundVerdict`). |
| BankService.BankService.Serve | mock-bank/bank/internal/handlers/routes.go:17-41 | Whatever is asked, the bank stays consistent, conserves money and keeps every balance within bounds. |
| ResponseCache.ResponseCache.Get | mock-bank/bank/internal/repository/idempotency.go:32-56 | Returns the stored reply or none. |
| ResponseCache.ResponseCache.Store | mock-bank/bank/internal/repository/idempotency.go:59-80 | The first reply under a key and route stays; a new one is kept with its time. |
| ResponseCache.IdempotencyMiddleware.Next | mock-bank/bank/internal/middleware/chaos.go:28-50 | Behind the cache, an injected failure answers without touching the ledger; otherwise the bank handles the request, and an unacknowledged commit keeps its ledger but answers with an error. |
| ResponseCache.IdempotencyMiddleware.Serve | mock-bank/bank/internal/middleware/idempotency.go:57-117 | Cache hit, miss, failed lookup, failed store and injected failure lead to the ledger, the remembered replies and the answer of `Served`, which `DeliveryPath` shows to be the bank's steps of the transition system. |

## Left out

- HTTP routing, JSON, credentials, rate limiting, metrics, logging, health, shutdown and configuration parsing: no protocol content.
- Cryptography and UUID generation: assumed injective and fresh, as above.
- Search, single-payment queries and pending-payment metrics: read-only.
- The retry-budget inequality of the configuration: it is about finishing in time; `CaptureCanComplete` and its siblings say that a command can finish, no theorem says that it must.
- Unparsable status strings and decline reasons: both are enumerations here, so the loader's errors for unknown ones do not arise.
- The JSON snapshot of a stored result: stored and read back as the same value.
- Widths of integers: unbounded here; `MoneyConserved` bounds every balance by its opening balance.
- Calendar dates: the bank's idea of the current month is an input of each authorization.
- The 24-hour age limit of bank cache entries: the transition system may forget any entries at any time (`DeletionIsEviction`).
- A bank database or network failure inside one bank transaction: modelled as a failure before or after it, never a partial commit.
- A request without an idempotency key at the bank: passed on to the handler unchanged, as the middleware does; what the generated handler then rejects is not modelled.
- PaymentService.PaymentService.AuthorizePayment: what the network, the clocks and the injected failures do is an input, and no other request runs in between; interleavings are the transition system's part.
- PaymentService.PaymentService.RetryAuthorization: what the network, the clocks and the injected failures do is an input, and no other request runs in between; interleavings are the transition system's part.
- PaymentService.PaymentService.CapturePayment: what the network, the clocks and the injected failures do is an input, and no other request runs in between; interleavings are the transition system's part.
- PaymentService.PaymentService.VoidPayment: what the network, the clocks and the injected failures do is an input, and no other request runs in between; interleavings are the transition system's part.
- PaymentService.PaymentService.RefundPayment: what the network, the clocks and the injected failures do is an input, and no other request runs in between; interleavings are the transition system's part.
- Settlements.DebitSettlesExactly: is about timely runs and assumes that some capture with a new key can still be made; without deadlines `StrandedForever` and `DebitCanSettle` hold, but a reply due to a worker whose claim was lost may or may not reach the row.
- BankClient.BankClient.Attempt: timeouts and undecodable bodies are one input, how the attempt went; a reply is one of the answers the bank can give, not text.
- PaymentObject.Payment.MarkAuthorized: like the other methods of the object, is stated against the value-level transition; fields that no method assigns are constants of the object.
