# A verified model of the payment gateway

The gateway takes a payment from creation over authorization and capture to settlement and refund,
keeps a double-entry ledger and a cached wallet per merchant, answers repeated create requests by an
idempotency key, and delivers webhooks with retries. This project models these parts in Dafny and
proves what they guarantee over every run.

`dafny verify dfyconfig.toml` checks everything.

## How it is built

Three machines are modelled. For each one there is a specification on values, laws proved about the
specification, and the services themselves as methods on objects whose contracts tie every call to
the specification.

| part | specification | laws | services on objects |
|---|---|---|---|
| payments, ledger, wallets, settlements | `StateMachine`, `Gateway`, `History` | `Invariant`, `Batch`, `MoneyLaws`, `WalletLaws`, `LedgerTotals`, `RunLaws`, `Answers` | `Database`, `Services` (three modules), `Router` |
| idempotent creation | `Idempotency` | `IdempotencyLaws`, `IdempotencySerial`, `IdempotencyRetry` | `IdempotencyService` |
| webhook delivery | `Webhook`, `WebhookOverlap` | `WebhookLaws`, `WebhookRuns`, `WebhookOverlapLaws` | `WebhookService` |

- A row's id is its position in its table; merchants, keys and ids are natural numbers.
- The money specification is `Gateway.Handle`: body validation, ownership check and service call of
  one request. `Gateway.Run` folds it over any sequence of requests of any merchants. A request that
  raises leaves the state as it was; on the objects that is a proved postcondition of each service.
  The bank's answer is part of the request.
- The selection of a settlement batch has no `ORDER BY`; the model takes table order.
- The idempotency specification runs the lookup, the reserving insert, the payment commit and the
  response commit of any number of requests as separate steps, in any order, with a crash possible
  before each. An uncommitted insert of a key is invisible to lookups and makes other inserters of
  that key wait. A body is its amount and the rest of it and stands for its hash; the stored response
  stands for the id of the payment in it. The amount is validated after the key has been checked, and
  a request with a bad amount rolls its reservation back.
- In the webhook specification a sweep is a series of turns that may interleave with anything on other
  logs, and an attempt is one step. `WebhookOverlap` splits the attempts on one log into the read of
  the row and the commit that writes the changed columns back, so that they may overlap.
- Clock readings and HTTP outcomes are inputs. `Broken` stands for any exception that is not a request
  error: a route then does not commit, a sweep does. Backoff is specified for attempt numbers from 1
  on, the only ones the callers pass.

## Where code and documentation disagree

The model follows the code.

- Settlement moves the authorized amount even when less was captured, and does not touch the wallet.
  `WalletLaws.WalletMatchesLedgerIff` and `WalletLaws.SettlementGap` say exactly when the amounts agree,
  `WalletLaws.SettledWalletExample` shows an overdrawn ledger account.
- A retry with the same key and body is meant to be replayed. It is not while the first response is
  not committed: `IdempotencySerial.CrashThenRetryPaysTwice`. A retry pays again exactly when the record
  it finds has no response (`IdempotencyRetry.RetryPaysIff`); the payments under a key are final exactly
  when it has a response and no admitted request is left to pay (`IdempotencyRetry.PaymentsFinalIff`,
  `IdempotencyRetry.NeverPaysTwiceIff`); `IdempotencyLaws.ResponseFinalIffQuiet` does the same for the
  response. A response alone is not enough: `IdempotencyRetry.AnsweredButNotFinal`.
- A copy of a request whose lookup comes before, and whose insert comes after, the commit of the other
  copy is neither replayed nor resumed: the unique key turns it away
  (`IdempotencyRetry.RacingCopyIsTurnedAway`, `IdempotencyRetry.KeyTakenIff`).
- Retries are meant to be abandoned after the maximum number of attempts. An exception that is not a
  request error escapes that (`WebhookLaws.BrokenSweepsNeverStop`), exactly when it breaks the sweep's
  attempt of that number (`WebhookLaws.OutOfAttemptsIffLimitBroke`). Attempts that overlap on a log escape
  it too, without any exception: a stale session sets the count back, and a log given up waits again
  (`WebhookOverlapLaws.GivenUpLogWaitsAgain`). The scheduler gets a whole new budget of attempts per stale
  session and no more (`WebhookOverlapLaws.CompletedBoundedByStale`, `WebhookOverlapLaws.BoundIsReached`);
  `WebhookOverlapLaws.AbandonedForGoodIff` says exactly when a log is abandoned for good.
- A delivered log is meant to have no retry time. Overlapping sessions can leave one on it:
  `WebhookOverlapLaws.TieCanBreakIff`; `WebhookOverlapLaws.TieKeptIff` names the commits that do it.
- A timed-out authorization is described as final; the code allows to authorize again, and a decline
  also undoes an earlier approval: `MoneyLaws.AuthorizeTakenIff`.
- Webhook retries are described as manual only; the repository has a scheduler, which is modelled.
- The capture route neither commits nor returns the payment. The model takes the service function as
  the step and commits it, as the other routes do.

## Model

| member | source | states |
|---|---|---|
| MoneyLaws.LedgerWord | app/services/ledger_service.py:31-77 | In every reachable state a payment's ledger entries are capture, settlement and refund pairs in one of seven orders, at most 8 entries, and replaying them gives back captured, refunded and settled amounts and the status. |
| RunLaws.EveryShapeOccurs | app/services/payment_service.py:76-117 | For each of the seven orders some run ends with a payment whose ledger entries are the pairs of the moves in that order. |
| MoneyLaws.AccountsClosedForm | app/services/ledger_service.py:31-71 | The net of each of the three accounts on one payment, in terms of captured, refunded and settled amounts. |
| MoneyLaws.StatusCoherence | app/services/payment_service.py:93-108 | Refunds never exceed the capture nor the capture the amount, and each status holds exactly when the amounts say so. |
| MoneyLaws.AtMostTwoRefunds | app/services/state_machine.py:8-11 | No run refunds a payment more than twice, and a second refund is the whole remainder. |
| MoneyLaws.AuthorizeTakenIff | app/services/payment_service.py:48-56 | Exactly which authorizations are accepted, and to which status they lead; a timeout changes nothing. |
| MoneyLaws.CaptureTakenIff | app/services/payment_service.py:69-78 | A capture is accepted exactly on an owned, authorized payment for a positive amount up to the authorized one. |
| MoneyLaws.RefundTakenIff | app/services/payment_service.py:93-108 | Exactly which refunds are accepted, and that the fallback to the authorized amount never decides an accepted one. |
| MoneyLaws.CaptureMovesMoney | app/services/payment_service.py:76-83 | An accepted capture posts the payment's first pair, for the requested amount or else the full one, and raises the balance by it. |
| MoneyLaws.RefundMovesMoney | app/services/payment_service.py:107-120 | An accepted refund is recorded, posts one reversing pair and lowers the balance by its amount. |
| MoneyLaws.CreatedPaymentCanBeCaptured | app/services/payment_service.py:27-37 | A new payment, once approved, can be captured by its merchant only and up to exactly the amount it was created for. |
| Answers.CreateAnswer | app/schemas/payment_schema.py:5-6 | A create request is refused exactly when its amount is not positive, as a bad body. |
| Answers.AuthorizeAnswer | app/services/payment_service.py:48-56 | Exactly which authorizations are not found and which are a conflict; no other refusal occurs. |
| Answers.CaptureAnswer | app/services/payment_service.py:69-76 | The exact reason of every refused capture, in the order of the checks: body, owner, amount, status. |
| Answers.RefundAnswer | app/services/payment_service.py:93-107 | The exact reason of every refused refund: body, owner, then the amount against the limit, then the status; until something is captured the limit is the authorized amount. |
| Answers.SettleAnswer | app/services/settlement_service.py:36-39 | A batch is refused exactly when the merchant has no captured payment, and always as a bad value. |
| Answers.NewPaymentAwaitsBank | app/services/payment_service.py:27-37 | A new payment is created and nothing else changes; it takes an approval, a decline and a timeout of the bank, and refuses captures and refunds until then. |
| Answers.OnlyTheBankApproves | app/services/payment_service.py:48-54 | In every run a payment has failed exactly when a decline was accepted for it, is still in the created status exactly when no answer was, and nothing was captured without an accepted approval. |
| Answers.WalletIffCaptured | app/services/ledger_service.py:8-18 | In every reachable state a merchant has a wallet exactly when one of its payments was ever captured. |
| Answers.EdgesAreTheChanges | app/services/state_machine.py:5-14 | The status map lists exactly the changes of status that some request makes in some reachable state: no edge is idle and none is missing. |
| WalletLaws.WalletLaw | app/services/ledger_service.py:13-18 | At most one wallet per merchant; its balance is captured less refunded over the merchant's payments, never negative, and equals the merchant's net ledger account plus its settlements. |
| WalletLaws.WalletMatchesLedgerIff | app/services/ledger_service.py:48-49 | The cached balance equals the ledger account exactly as long as the merchant has no settlement. |
| WalletLaws.SettledWalletExample | app/services/settlement_service.py:57-69 | 60 of 100 captured, then settled: wallet 60, ledger account -40. |
| WalletLaws.SettlementIsItsMembers | app/services/settlement_service.py:41-48 | In every reachable state a settlement's amount and count are those of the payments carrying its id, which are captured payments of its merchant; both are positive and it is completed. |
| WalletLaws.SettlementGap | app/services/settlement_service.py:41-69 | Settled less captured over the settled payments is the sum of the uncaptured remainders, never negative, and zero exactly when all of them were fully captured. |
| WalletLaws.BatchTakenIff | app/services/settlement_service.py:12-39 | A batch is accepted exactly when the merchant has a captured payment left. |
| WalletLaws.BatchEffectOnTables | app/services/settlement_service.py:43-71 | A batch adds one settlement and two entries per chosen payment and leaves refunds, wallets and earlier settlements. |
| WalletLaws.BatchEffectOnPayment | app/services/settlement_service.py:57-76 | Each chosen payment is settled with one pair of its own for its full amount; no other payment and no other ledger changes. |
| WalletLaws.SecondBatchRejected | app/services/settlement_service.py:36-39 | A batch straight after a batch of the same merchant is refused and changes nothing. |
| LedgerTotals.AccountTotals | app/services/ledger_service.py:21-79 | Over the whole ledger the bank account is the sum of all settlement amounts, the customers' account is all refunds less all captures, and the merchants' account is captures less refunds less settlements. |
| LedgerTotals.WalletsHoldCustomersMoney | app/services/ledger_service.py:48-77 | All wallet balances together are what customers paid in and did not get back, and exceed the merchants' ledger account by exactly what was settled. |
| RunLaws.MerchantsAreIsolated | app/routers/payment_router.py:22-34 | No request changes the payments, refunds, ledger entries or balance of another merchant. |
| RunLaws.TakenRequestsDescend | app/services/state_machine.py:5-32 | Every accepted request on a payment, timeouts aside, strictly lowers the rank of its status. |
| RunLaws.AtMostFiveChanges | app/services/state_machine.py:5-14 | No run changes a payment's status more than five times. |
| RunLaws.HistoryIsAppendOnly | app/services/payment_service.py:76-115 | From any reachable state on, ledger, refunds and settlements only grow at the end, and merchant, amount, captured amount and settlement of a payment are written at most once. |
| RunLaws.RefundedNeverSettled | app/services/settlement_service.py:19-23 | A payment refunded before settlement is in no settlement in any continuation. |
| RunLaws.TerminalIsFinal | app/services/state_machine.py:11-12 | A failed or refunded payment keeps its row, refunds and ledger in every continuation; a failed one has no entries, refunds or settlement. |
| RunLaws.DoubleEntry | app/services/ledger_service.py:31-71 | Debits equal credits over the whole ledger and on each payment, in every reachable state. |
| Batch.RunGood | app/services/payment_service.py:40-120 | The invariant that ties the five tables together holds after any sequence of requests. |
| Invariant.PostGood | app/services/ledger_service.py:21-79 | Any justified change of one payment's row together with its pair and its wallet keeps that invariant. |
| Batch.BatchGood | app/services/settlement_service.py:28-87 | A settlement batch keeps that invariant. |
| Gateway.FindWallet | app/services/ledger_service.py:13-13 | The first wallet of the merchant, or none. |
| Gateway.UnsettledIds | app/services/settlement_service.py:17-25 | Exactly the merchant's captured, unsettled payments, in table order, each once. |
| LedgerService.GetOrCreateWallet | app/services/ledger_service.py:8-18 | Returns the merchant's first wallet or inserts one with balance zero. |
| LedgerService.RecordCapture | app/services/ledger_service.py:21-51 | Appends the capture pair and raises the wallet; every other table stays. |
| LedgerService.RecordRefund | app/services/ledger_service.py:53-79 | Appends the reversing pair and lowers the wallet; every other table stays. |
| PaymentService.CreatePayment | app/services/payment_service.py:14-37 | Inserts one payment of the merchant for the amount in the created status, with nothing captured and no settlement. |
| PaymentService.AuthorizePayment | app/services/payment_service.py:40-56 | The new state is the specified one, or the error is the specified one and nothing changed. |
| PaymentService.CapturePayment | app/services/payment_service.py:59-83 | The same for captures, ledger and wallet included. |
| PaymentService.AlreadyRefunded | app/services/payment_service.py:93-93 | The loop adds up exactly the refunds of the payment. |
| PaymentService.RemainingRefundable | app/services/payment_service.py:93-94 | The captured amount, or the authorized one when it is missing or zero, less the refunds of the payment. |
| PaymentService.RefundPayment | app/services/payment_service.py:85-120 | The same for refunds. |
| SettlementService.GetUnsettledPayments | app/services/settlement_service.py:12-25 | The selection is the specified list of payments. |
| SettlementService.SumAmounts | app/services/settlement_service.py:41-41 | The loop adds up the full amounts of the selected payments. |
| SettlementService.SettlePayment | app/services/settlement_service.py:58-76 | One turn of the loop posts one pair, settles one payment, and its transition is never refused. |
| SettlementService.SettleAll | app/services/settlement_service.py:57-76 | The loop posts the pairs of, and marks, exactly the selected payments. |
| SettlementService.CreateSettlementBatch | app/services/settlement_service.py:28-87 | The new state is the specified one, or nothing is selected, the error is returned and nothing changed. |
| Router.GetOwnedPayment | app/routers/payment_router.py:22-34 | Finds a payment exactly when it exists and is the merchant's. |
| Router.Serve | app/routers/payment_router.py:36-119 | Serving any request on the objects gives the specified state, or the specified refusal and no change. |
| IdempotencyLaws.PaymentsBoundedByAdmissions | app/middlewares/idempotency_middleware.py:50-79 | Under every interleaving and every crash, payments under a key never outnumber the requests admitted for it. |
| IdempotencyLaws.AdmittedOnlyWithoutResponse | app/middlewares/idempotency_middleware.py:54-71 | Requests are admitted only while the key has no committed response. |
| IdempotencyLaws.OnePaymentIffNoResumedPayment | app/middlewares/idempotency_middleware.py:71-79 | How the payments under a recorded key come about: one from the request that reserved it, plus one from each request that resumed it and committed. |
| IdempotencyLaws.KeyNamesOneCall | app/models/idempotency_key.py:12-16 | All payments and replays under a key belong to one merchant and one body. |
| IdempotencyLaws.EveryPaymentIsAnswered | app/routers/payment_router.py:50-67 | Under every interleaving and every crash each payment belongs to exactly one request, made by the call it is for, which still owes its response, was answered with that payment, or crashed. |
| IdempotencyLaws.StoredResponseWasGiven | app/routers/payment_router.py:61-67 | A stored response is one that some request was answered with; a crash stores none. |
| IdempotencyLaws.NoNewPaymentsOnceAnswered | app/routers/payment_router.py:50-65 | After a response is committed, the payments still to come are at most the requests already admitted and not yet paid; the exact condition for none at all is PaymentsFinalIff. |
| IdempotencyLaws.ResponseFinalIffQuiet | app/services/idempotency_service.py:49-54 | A stored response stays the same in every continuation exactly when no admitted request of the key is still running. |
| IdempotencyRetry.RetryPaysIff | app/middlewares/idempotency_middleware.py:50-79 | Whatever else is in flight, a request run undisturbed adds one payment exactly when its amount is valid and its key has its own record without response, or no record and no insert under way; otherwise it adds none. |
| IdempotencyRetry.PaymentsFinalIff | app/routers/payment_router.py:50-65 | In every reachable state: the payments under a key stay the same in every continuation exactly when the key has a response and no admitted request is left to pay. |
| IdempotencyRetry.NeverPaysTwiceIff | app/middlewares/idempotency_middleware.py:28-37 | No continuation has two payments under a key exactly when the key has one, a response, and no admitted request left to pay. |
| IdempotencyRetry.AnsweredButNotFinal | app/routers/payment_router.py:58-67 | A retry let through between the two commits of the first request: the key is answered with one payment, then gets a second payment and another response, and each request is answered with its own payment. |
| IdempotencyRetry.KeyTakenIff | app/services/idempotency_service.py:36-46 | A reserving insert is refused exactly when the key has a committed record by then, whoever it belongs to. |
| IdempotencyRetry.UndisturbedKeyTakenIff | app/models/idempotency_key.py:12-13 | A request run undisturbed is turned away for its key exactly when another merchant has it. |
| IdempotencyRetry.RacingCopyIsTurnedAway | app/middlewares/idempotency_middleware.py:50-79 | Of two copies that both looked the key up before either inserted it, the later is turned away although the record is its own. |
| IdempotencySerial.CrashThenRetryPaysTwice | app/routers/payment_router.py:58-65 | A crash between the two commits followed by the retry gives two payments. |
| IdempotencySerial.ServeIsRoute | app/routers/payment_router.py:38-67 | The small steps of an undisturbed request add up to the route. |
| IdempotencySerial.SerialIsReachable | app/routers/payment_router.py:38-67 | Serving any requests one after the other is one of the interleavings, so the laws about reachable states hold of it. |
| IdempotencySerial.SerialKeepsThePromise | app/middlewares/idempotency_middleware.py:28-37 | Any sequence of undisturbed requests gets the replies of a plain map from keys to first valid requests, with one payment per key. |
| IdempotencySerial.RepliesFollowFirstUse | app/middlewares/idempotency_middleware.py:28-37 | The first use of a key with a valid amount creates a payment; earlier uses are refused for their amount; later uses replay it, or are refused for another body or another merchant. |
| IdempotencyService.IdempotencyTable.GetRecord | app/services/idempotency_service.py:21-26 | The record with this merchant and this key, if any. |
| IdempotencyService.IdempotencyTable.CreateRecord | app/services/idempotency_service.py:29-46 | Inserts a record without response unless the key is taken. |
| IdempotencyService.CheckIdempotency | app/middlewares/idempotency_middleware.py:50-79 | Rejects, replays, resumes or reserves as the stored record demands; only reserving changes the table. |
| IdempotencyService.SaveResponse | app/services/idempotency_service.py:49-54 | Stores the response in this record only. |
| IdempotencyService.CreatePayment | app/routers/payment_router.py:38-67 | Records, number of payments and reply are those of the specified route, bad amounts included; the money tables change only by the creation of a payment for the amount in the body. |
| WebhookLaws.SchedulerAttemptsBounded | app/services/webhook_service.py:54-98 | In every interleaving of attempts that do not overlap on a log, the scheduler completes fewer attempts on it than the limit, and it waits for a retry exactly when a retry time is set. The bound with overlap is CompletedBoundedByStale, the tie with overlap TieKeptIff. |
| WebhookLaws.OutOfAttemptsIffLimitBroke | app/services/scheduler.py:42-50 | In every such interleaving and for any limit: the count is the number of attempts whose session committed; a waiting log has used up its attempts exactly when attempt number `limit` broke in a sweep, and only then, with every attempt since broken in a sweep too, does the scheduler go beyond that number. |
| WebhookRuns.RaisedSendsLeaveNoTrace | app/routers/webhook_router.py:53-54 | Taking every initial send and manual retry that raised out of a run gives the same log rows, in every column, with the same counted attempts. |
| WebhookLaws.NeverWaitsAgainIff | app/services/webhook_service.py:86-98 | While attempts on it do not overlap, a log never waits for a retry again exactly when it does not wait now and has at most one attempt left. |
| WebhookLaws.BrokenSweepsNeverStop | app/services/scheduler.py:42-50 | For every n some run has n scheduler attempts on a log that is still waiting, when sweeps break on it. |
| WebhookOverlap.SessionsCommitOnce | app/routers/webhook_router.py:53-54 | In every run of overlapping sessions, commits and open sessions together never outnumber the reads. |
| WebhookOverlap.FreshSessionsAreAttempts | app/services/scheduler.py:27-50 | Sessions on a log of which each read what the one before committed amount to a run of attempts that do not overlap. |
| WebhookOverlap.AttemptsCountedIff | app/services/webhook_service.py:54-54 | However sessions overlap, the row never counts more attempts than were committed, and counts all of them exactly when none was committed between another's read and its commit. |
| WebhookOverlapLaws.CompletedBoundedByStale | app/services/scheduler.py:27-50 | However sessions overlap, the scheduler completes at most limit - 1 attempts on a log, times one more than the number of attempts committed from a stale copy; without stale copies that is the intended bound. |
| WebhookOverlapLaws.BoundIsReached | app/services/scheduler.py:36-50 | For every limit from two and every number of stale attempts some run completes exactly that many, and no sweep broke. |
| WebhookOverlapLaws.StaleSessionsNeverStop | app/services/scheduler.py:36-50 | For every limit from two and every n some run has n completed scheduler attempts on one log whose count is at most two, and no sweep broke. |
| WebhookOverlapLaws.AbandonedForGoodIff | app/services/webhook_service.py:54-98 | From any state, overlap included: no continuation makes the log wait again exactly when it does not wait, has at most one attempt left, and every open session read a row with at most one attempt left, or a waiting one with at most two. |
| WebhookOverlapLaws.GivenUpLogWaitsAgain | app/services/webhook_service.py:90-98 | For every limit from two some run gives a log up after its last attempt, and one late refusal of a session that read it new makes it wait again with one attempt counted. |
| WebhookOverlapLaws.TieBreaksIff | app/services/webhook_service.py:69-98 | Exactly which attempts, committed from a stale copy, make status and retry time disagree: a rescheduling of a row that no longer waits, or a new final status on a row that has begun to wait. |
| WebhookOverlapLaws.TieKeptIff | app/services/webhook_service.py:69-98 | In every run of overlapping sessions, a log waits exactly when it has a retry time, after each step, if and only if no step is such a commit. |
| WebhookOverlapLaws.TieCanBreakIff | app/services/webhook_service.py:72-76 | Some run makes status and retry time disagree exactly when the limit is at least two. |
| WebhookOverlapLaws.DeliveredThenRescheduled | app/services/webhook_service.py:93-98 | With a limit from three, a run of two retries of a waiting log ends with the log delivered, two attempts counted and a retry time set. |
| WebhookLaws.OutcomeDecides | app/services/webhook_service.py:54-98 | After an attempt the log is delivered, waiting or given up exactly as its outcome and the attempts used say, with the retry time set accordingly; a broken attempt only counts. |
| WebhookLaws.AttemptsWaitForBackoff | app/services/webhook_service.py:93-98 | Attempt k+1 of a scheduler-driven log starts no earlier than the first plus the first k backoffs, for any limit. |
| WebhookLaws.BackoffIsCappedDoubling | app/utils/retry.py:5-12 | The delay is 2 to the power of the attempt up to the fifth, and 60 seconds from then on. |
| WebhookLaws.FiveAttemptsTakeThirtySeconds | app/config/settings.py:14-14 | With five attempts the fifth is at least 30 seconds after the first and the cap is never reached. |
| WebhookRuns.EveryAttemptIsMade | app/services/webhook_service.py:86-98 | For every limit some run left to the scheduler makes exactly that many attempts, each as soon as the backoffs before it add up to, and then gives up. |
| WebhookRuns.FifthAttemptAfterThirtySeconds | app/config/settings.py:14-14 | As configured, some run makes exactly five attempts, the fifth 30 seconds after the first, and then gives up. |
| Webhook.SweepIsItsTurns | app/services/scheduler.py:36-47 | Taking the turns of a sweep one after the other gives the sweep's effect. |
| WebhookLaws.SweepEffect | app/services/scheduler.py:27-47 | A sweep attempts each due log once, or gives it up without URL, and leaves the others; a log is still due at its query time exactly when its attempt broke. |
| WebhookLaws.SecondSweepDoesNothing | app/services/scheduler.py:27-34 | If nothing broke, a second sweep with the same query time changes nothing. |
| WebhookService.ScheduleRetryOrFail | app/services/webhook_service.py:86-98 | The log becomes the specified one. |
| WebhookService.SendWebhook | app/services/webhook_service.py:47-83 | The attempt is counted and the log becomes the specified one for every outcome. |
| WebhookService.RetryWebhook | app/routers/webhook_router.py:31-56 | The manual retry: not found for another merchant, refused without URL, and an attempt that raised leaves every row as it was; otherwise this log becomes the specified one. |
| WebhookService.DueLogs | app/services/scheduler.py:27-34 | Exactly the waiting logs whose retry time has passed, each once. |
| WebhookService.RedriveDueWebhooks | app/services/scheduler.py:14-53 | The loop gives every log the specified sweep result, due or not. |

## Left out

- Overlapping attempts on one log in the laws on spacing and sweeps and in the services on objects: a sweep commits once at its end (app/services/scheduler.py:49-50), so until then other sessions read the old rows. `WebhookOverlapLaws` covers the bound on attempts, giving up and the tie between status and retry time under overlap; `WebhookLaws` has its laws, `NeverWaitsAgainIff` included, for attempts on a log that do not overlap.
- Concurrent requests on the same payment or wallet: each money request is one atomic step; the services take no row locks.
- `expires_at` of an idempotency record: it is stored and never read.
- The request path of an idempotency record: stored and never compared.
- Other faults of a create body than its amount (a missing field, an unknown currency): they end like a bad amount.
- Authentication, API keys, HMAC signing and rate limiting: separate from the money, key and delivery logic.
- Creation of webhook logs from the authorize and refund routes: the delivery model starts from any number of new logs.
- Currency, receipt, description, refund reason, refund status, settled_at and webhook payloads: carried and never branched on.
- Database, migrations, sessions and scheduling intervals: tables are sequences and maps, and the moments of sweeps are arbitrary.
- The integer width of database columns: amounts are unbounded.
